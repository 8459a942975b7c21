/** The Power Mode switch in Settings: turning it on always succeeds, while
    turning it off is refused, with an alert, as long as any Power Mode
    configuration is still enabled. */
module PowerMode {

  /** A Power Mode configuration; the switch only reads `isEnabled`. */
  datatype PowerModeConfig = PowerModeConfig(isEnabled: bool)

  /** `noneEnabled`: `allSatisfy { !$0.isEnabled }`, checked front to back. */
  function NoneEnabled(configs: seq<PowerModeConfig>): bool {
    configs == [] || (!configs[0].isEnabled && NoneEnabled(configs[1..]))
  }

  lemma {:induction false} NoneEnabledIff(configs: seq<PowerModeConfig>)
    ensures NoneEnabled(configs) <==> forall i :: 0 <= i < |configs| ==> !configs[i].isEnabled
  {
    if configs != [] {
      NoneEnabledIff(configs[1..]);
      assert forall i :: 1 <= i < |configs| ==> configs[i] == configs[1..][i - 1];
    }
  }

  /** The view state the binding reads and writes. */
  datatype ToggleState = ToggleState(powerModeUIFlag: bool, showDisableAlert: bool)

  /** The binding's getter. */
  function ToggleGet(st: ToggleState): bool {
    st.powerModeUIFlag
  }

  /** The binding's setter. The configuration list is only read. */
  function ToggleSet(st: ToggleState, configs: seq<PowerModeConfig>, newValue: bool): (r: ToggleState)
    ensures newValue ==> r == st.(powerModeUIFlag := true)
    ensures !newValue && (forall i :: 0 <= i < |configs| ==> !configs[i].isEnabled) ==>
              r == st.(powerModeUIFlag := false)
    ensures !newValue && (exists i :: 0 <= i < |configs| && configs[i].isEnabled) ==>
              r == st.(showDisableAlert := true)
  {
    NoneEnabledIff(configs);
    if newValue then st.(powerModeUIFlag := true)
    else if NoneEnabled(configs) then st.(powerModeUIFlag := false)
    else st.(showDisableAlert := true)
  }

  /** After a set, the switch reads the requested value, or the request was
      to turn it off while some configuration is enabled and the alert is up. */
  lemma GetAfterSet(st: ToggleState, configs: seq<PowerModeConfig>, newValue: bool)
    ensures var r := ToggleSet(st, configs, newValue);
            ToggleGet(r) == newValue
            || (!newValue && r.showDisableAlert && ToggleGet(r) == ToggleGet(st)
                && exists i :: 0 <= i < |configs| && configs[i].isEnabled)
  {
    NoneEnabledIff(configs);
  }

  lemma SetIdempotent(st: ToggleState, configs: seq<PowerModeConfig>, newValue: bool)
    ensures ToggleSet(ToggleSet(st, configs, newValue), configs, newValue) == ToggleSet(st, configs, newValue)
  {
  }

  /** Applies the requested values in order. */
  function ToggleAll(st: ToggleState, configs: seq<PowerModeConfig>, requests: seq<bool>): ToggleState
    decreases |requests|
  {
    if requests == [] then st else ToggleAll(ToggleSet(st, configs, requests[0]), configs, requests[1..])
  }

  /** While some configuration is enabled, no sequence of requests turns
      Power Mode off once it is on. */
  lemma {:induction false} StaysOnWhileEnabled(st: ToggleState, configs: seq<PowerModeConfig>, requests: seq<bool>)
    requires st.powerModeUIFlag
    requires exists i :: 0 <= i < |configs| && configs[i].isEnabled
    ensures ToggleAll(st, configs, requests).powerModeUIFlag
    decreases |requests|
  {
    if requests != [] {
      StaysOnWhileEnabled(ToggleSet(st, configs, requests[0]), configs, requests[1..]);
    }
  }

  /** With every configuration disabled, the switch ends on the last
      request, and no request ever raises the alert. */
  lemma {:induction false} FollowsRequestsWhenNoneEnabled(st: ToggleState, configs: seq<PowerModeConfig>,
                                                         requests: seq<bool>)
    requires forall i :: 0 <= i < |configs| ==> !configs[i].isEnabled
    requires requests != []
    ensures ToggleAll(st, configs, requests).powerModeUIFlag == requests[|requests| - 1]
    ensures ToggleAll(st, configs, requests).showDisableAlert == st.showDisableAlert
    decreases |requests|
  {
    if |requests| > 1 {
      FollowsRequestsWhenNoneEnabled(ToggleSet(st, configs, requests[0]), configs, requests[1..]);
    }
  }
}
