/** The registry of user-defined cloud transcription models: an ordered list
    of configurations with add, remove and update, and the field validation
    run before a configuration is added or edited. */
module CustomModels {
  import opened Results
  import opened Text

  /** A `UUID`, compared only for equality. */
  type Uuid = nat

  datatype CustomCloudModel = CustomCloudModel(
    id: Uuid,
    name: string,
    displayName: string,
    apiEndpoint: string,
    apiKey: string,
    modelName: string)

  // ---------------------------------------------------------------------
  // List operations

  /** `addCustomModel`: appends without validating. */
  function AddCustomModel(models: seq<CustomCloudModel>, model: CustomCloudModel): (r: seq<CustomCloudModel>)
    ensures |r| == |models| + 1
    ensures r[..|models|] == models
    ensures r[|models|] == model
  {
    models + [model]
  }

  /** `a` can be obtained from `b` by deleting elements. */
  predicate IsSubsequence<T(==)>(a: seq<T>, b: seq<T>)
    decreases |b|
  {
    if b == [] then a == []
    else (a != [] && a[0] == b[0] && IsSubsequence(a[1..], b[1..])) || IsSubsequence(a, b[1..])
  }

  /** How many models carry `id`. */
  function CountWithId(models: seq<CustomCloudModel>, id: Uuid): (n: nat)
    ensures n <= |models|
  {
    if models == [] then 0
    else (if models[0].id == id then 1 else 0) + CountWithId(models[1..], id)
  }

  /** `removeCustomModel(withId:)`: `removeAll { $0.id == id }`. */
  function RemoveCustomModel(models: seq<CustomCloudModel>, id: Uuid): (r: seq<CustomCloudModel>)
    ensures forall m :: m in r <==> m in models && m.id != id
    ensures IsSubsequence(r, models)
    ensures |r| == |models| - CountWithId(models, id)
  {
    if models == [] then []
    else
      var rest := RemoveCustomModel(models[1..], id);
      if models[0].id == id then
        rest
      else
        assert ([models[0]] + rest)[1..] == rest;
        [models[0]] + rest
  }

  /** Index of the first model whose id is `id` (`firstIndex(where:)`). */
  function FirstIndexOf(models: seq<CustomCloudModel>, id: Uuid): (r: Option<nat>)
    ensures r.None? <==> forall i :: 0 <= i < |models| ==> models[i].id != id
    ensures r.Some? ==> r.value < |models| && models[r.value].id == id
    ensures r.Some? ==> forall i :: 0 <= i < r.value ==> models[i].id != id
  {
    if models == [] then None
    else if models[0].id == id then Some(0)
    else
      match FirstIndexOf(models[1..], id)
      case None => None
      case Some(k) => Some(k + 1)
  }

  /** `updateCustomModel`: replaces the first model with the same id;
      nothing happens when no model has that id. */
  function UpdateCustomModel(models: seq<CustomCloudModel>, updated: CustomCloudModel): (r: seq<CustomCloudModel>)
    ensures |r| == |models|
    ensures forall i :: 0 <= i < |r| ==> r[i].id == models[i].id
    ensures (forall i :: 0 <= i < |models| ==> models[i].id != updated.id) ==> r == models
    ensures forall k :: 0 <= k < |models| && models[k].id == updated.id
                        && (forall i :: 0 <= i < k ==> models[i].id != updated.id)
                        ==> r == models[k := updated]
  {
    match FirstIndexOf(models, updated.id)
    case None => models
    case Some(k) => models[k := updated]
  }

  lemma {:induction false} RemoveIdempotent(models: seq<CustomCloudModel>, id: Uuid)
    ensures RemoveCustomModel(RemoveCustomModel(models, id), id) == RemoveCustomModel(models, id)
  {
    if models != [] {
      RemoveIdempotent(models[1..], id);
      var rest := RemoveCustomModel(models[1..], id);
      if models[0].id != id {
        assert ([models[0]] + rest)[1..] == rest;
      }
    }
  }

  lemma {:induction false} RemoveAbsentIsIdentity(models: seq<CustomCloudModel>, id: Uuid)
    requires forall i :: 0 <= i < |models| ==> models[i].id != id
    ensures RemoveCustomModel(models, id) == models
  {
    if models != [] {
      RemoveAbsentIsIdentity(models[1..], id);
      assert [models[0]] + models[1..] == models;
    }
  }

  lemma {:induction false} RemoveDistributes(a: seq<CustomCloudModel>, b: seq<CustomCloudModel>, id: Uuid)
    ensures RemoveCustomModel(a + b, id) == RemoveCustomModel(a, id) + RemoveCustomModel(b, id)
  {
    if a == [] {
      assert a + b == b;
    } else {
      assert (a + b)[1..] == a[1..] + b;
      RemoveDistributes(a[1..], b, id);
      var ra, rb := RemoveCustomModel(a[1..], id), RemoveCustomModel(b, id);
      if a[0].id != id {
        assert RemoveCustomModel(a + b, id) == [a[0]] + (ra + rb);
        assert [a[0]] + (ra + rb) == ([a[0]] + ra) + rb;
      }
    }
  }

  /** Removing a model right after adding it restores the list, provided its id was new. */
  lemma RemoveUndoesAdd(models: seq<CustomCloudModel>, model: CustomCloudModel)
    requires forall i :: 0 <= i < |models| ==> models[i].id != model.id
    ensures RemoveCustomModel(AddCustomModel(models, model), model.id) == models
  {
    RemoveDistributes(models, [model], model.id);
    RemoveAbsentIsIdentity(models, model.id);
    assert RemoveCustomModel([model], model.id) == [];
  }

  lemma UpdateIdempotent(models: seq<CustomCloudModel>, updated: CustomCloudModel)
    ensures UpdateCustomModel(UpdateCustomModel(models, updated), updated) == UpdateCustomModel(models, updated)
  {
  }

  // ---------------------------------------------------------------------
  // Validation

  /** The findings of `validateModel`, one per message it can emit. */
  datatype ValidationError =
    | NameEmpty
    | DisplayNameEmpty
    | EndpointEmpty
    | EndpointInvalid
    | ApiKeyEmpty
    | ModelNameEmpty
    | DuplicateName
  {
    /** The text shown to the user. */
    function Message(): string {
      match this
      case NameEmpty => "Name cannot be empty"
      case DisplayNameEmpty => "Display name cannot be empty"
      case EndpointEmpty => "API endpoint cannot be empty"
      case EndpointInvalid => "API endpoint must be a valid URL"
      case ApiKeyEmpty => "API key cannot be empty"
      case ModelNameEmpty => "Model name cannot be empty"
      case DuplicateName => "A model with this name already exists"
    }
  }

  /** The order in which `validateModel` runs its checks. */
  const CheckOrder: seq<ValidationError> :=
    [NameEmpty, DisplayNameEmpty, EndpointEmpty, EndpointInvalid, ApiKeyEmpty, ModelNameEmpty, DuplicateName]

  /** The parts of a URL that `URL(string:)` recognised. */
  datatype UrlParts = UrlParts(scheme: Option<string>, host: Option<string>)

  /** `isValidURL`: the string parses and the URL has both a scheme and a host. */
  predicate IsValidUrl(parse: string -> Option<UrlParts>, s: string): (valid: bool)
    ensures parse(s).None? ==> !valid
    ensures parse(s).Some? ==> (valid <==> parse(s).value.scheme.Some? && parse(s).value.host.Some?)
  {
    match parse(s)
    case None => false
    case Some(url) => url.scheme.Some? && url.host.Some?
  }

  predicate Distinct<T(==)>(s: seq<T>) {
    forall i, j :: 0 <= i < j < |s| ==> s[i] != s[j]
  }

  /** One `if` of `validateModel`: whether its test failed, and the finding it appends. */
  datatype Check = Check(failed: bool, finding: ValidationError)

  function FindingsOf(checks: seq<Check>): (r: seq<ValidationError>)
    ensures |r| == |checks|
    ensures forall i :: 0 <= i < |checks| ==> r[i] == checks[i].finding
  {
    seq(|checks|, i requires 0 <= i < |checks| => checks[i].finding)
  }

  /** Runs the checks in order, appending the finding of each one that fails. */
  function Collect(checks: seq<Check>): (r: seq<ValidationError>)
    ensures IsSubsequence(r, FindingsOf(checks))
    ensures forall e :: e in r ==> e in FindingsOf(checks)
  {
    if checks == [] then []
    else
      var rest := Collect(checks[1..]);
      assert FindingsOf(checks)[1..] == FindingsOf(checks[1..]);
      if checks[0].failed then
        assert ([checks[0].finding] + rest)[1..] == rest;
        [checks[0].finding] + rest
      else
        rest
  }

  /** When no two checks report the same finding, a finding is reported
      exactly when its check fails. */
  lemma {:induction false} CollectReports(checks: seq<Check>, k: nat)
    requires k < |checks|
    requires Distinct(FindingsOf(checks))
    ensures checks[k].finding in Collect(checks) <==> checks[k].failed
  {
    assert FindingsOf(checks)[1..] == FindingsOf(checks[1..]);
    if k > 0 {
      CollectReports(checks[1..], k - 1);
      assert FindingsOf(checks)[0] != FindingsOf(checks)[k];
    } else if |checks| > 1 {
      assert checks[0].finding !in FindingsOf(checks[1..]);
    }
  }

  lemma {:induction false} SubsequenceOfDistinct<T>(a: seq<T>, b: seq<T>)
    requires IsSubsequence(a, b) && Distinct(b)
    ensures Distinct(a)
    decreases |b|
  {
    if b != [] {
      if a != [] && a[0] == b[0] && IsSubsequence(a[1..], b[1..]) {
        SubsequenceOfDistinct(a[1..], b[1..]);
        SubsequenceElements(a[1..], b[1..]);
        forall j | 0 < j < |a| ensures a[0] != a[j] {
          assert a[j] == a[1..][j - 1];
          assert a[j] in a[1..];
          assert a[j] in b[1..];
          var k :| 0 <= k < |b[1..]| && b[1..][k] == a[j];
          assert b[0] != b[k + 1];
        }
      } else {
        SubsequenceOfDistinct(a, b[1..]);
      }
    }
  }

  lemma {:induction false} SubsequenceElements<T>(a: seq<T>, b: seq<T>)
    requires IsSubsequence(a, b)
    ensures forall x :: x in a ==> x in b
    decreases |b|
  {
    if b != [] {
      if a != [] && a[0] == b[0] && IsSubsequence(a[1..], b[1..]) {
        SubsequenceElements(a[1..], b[1..]);
        assert a == [a[0]] + a[1..];
      } else {
        SubsequenceElements(a, b[1..]);
      }
    }
  }

  /** A subsequence that leaves out some element is strictly shorter. */
  lemma {:induction false} SubsequenceMissingIsShorter<T>(a: seq<T>, b: seq<T>, x: T)
    requires IsSubsequence(a, b)
    requires x in b && x !in a
    ensures |a| < |b|
    decreases |b|
  {
    if a != [] && a[0] == b[0] && IsSubsequence(a[1..], b[1..]) {
      assert x != b[0];
      assert x in b[1..];
      SubsequenceMissingIsShorter(a[1..], b[1..], x);
    } else if x == b[0] {
      SubsequenceLength(a, b[1..]);
    } else {
      SubsequenceMissingIsShorter(a, b[1..], x);
    }
  }

  lemma {:induction false} SubsequenceLength<T>(a: seq<T>, b: seq<T>)
    requires IsSubsequence(a, b)
    ensures |a| <= |b|
    decreases |b|
  {
    if b != [] {
      if a != [] && a[0] == b[0] && IsSubsequence(a[1..], b[1..]) {
        SubsequenceLength(a[1..], b[1..]);
      } else {
        SubsequenceLength(a, b[1..]);
      }
    }
  }

  /** The list `validateModel` builds from the outcome of each test: the
      finding of every failing check, in check order. The endpoint is only
      parsed when it is not blank, so its two findings exclude each other. */
  function Findings(nameBlank: bool, displayNameBlank: bool, endpointBlank: bool, endpointValid: bool,
                    apiKeyBlank: bool, modelNameBlank: bool, duplicate: bool): (r: seq<ValidationError>)
    ensures NameEmpty in r <==> nameBlank
    ensures DisplayNameEmpty in r <==> displayNameBlank
    ensures EndpointEmpty in r <==> endpointBlank
    ensures EndpointInvalid in r <==> !endpointBlank && !endpointValid
    ensures ApiKeyEmpty in r <==> apiKeyBlank
    ensures ModelNameEmpty in r <==> modelNameBlank
    ensures DuplicateName in r <==> duplicate
    ensures IsSubsequence(r, CheckOrder)
  {
    var checks := [Check(nameBlank, NameEmpty), Check(displayNameBlank, DisplayNameEmpty),
                   Check(endpointBlank, EndpointEmpty), Check(!endpointBlank && !endpointValid, EndpointInvalid),
                   Check(apiKeyBlank, ApiKeyEmpty), Check(modelNameBlank, ModelNameEmpty),
                   Check(duplicate, DuplicateName)];
    assert FindingsOf(checks) == CheckOrder;
    CheckOrderDistinct();
    CollectReports(checks, 0);
    CollectReports(checks, 1);
    CollectReports(checks, 2);
    CollectReports(checks, 3);
    CollectReports(checks, 4);
    CollectReports(checks, 5);
    CollectReports(checks, 6);
    Collect(checks)
  }

  lemma CheckOrderDistinct()
    ensures Distinct(CheckOrder)
  {
  }

  /** A list of findings in check order repeats nothing and, since the two
      endpoint findings exclude each other, holds at most six. */
  lemma FindingsShape(r: seq<ValidationError>)
    requires IsSubsequence(r, CheckOrder)
    requires EndpointEmpty !in r || EndpointInvalid !in r
    ensures Distinct(r)
    ensures |r| <= 6
  {
    CheckOrderDistinct();
    SubsequenceOfDistinct(r, CheckOrder);
    if EndpointEmpty !in r {
      SubsequenceMissingIsShorter(r, CheckOrder, EndpointEmpty);
    } else {
      SubsequenceMissingIsShorter(r, CheckOrder, EndpointInvalid);
    }
  }

  /** The five-argument `validateModel`: the duplicate check compares the
      untrimmed name with every stored model's name. A field is empty when
      trimming whitespace leaves nothing of it, which `Trim`'s postcondition
      shows is the case exactly when it is all whitespace. */
  function ValidateModel(models: seq<CustomCloudModel>, name: string, displayName: string,
                         apiEndpoint: string, apiKey: string, modelName: string,
                         parse: string -> Option<UrlParts>): (r: seq<ValidationError>)
    ensures NameEmpty in r <==> AllWhitespace(name)
    ensures DisplayNameEmpty in r <==> AllWhitespace(displayName)
    ensures EndpointEmpty in r <==> AllWhitespace(apiEndpoint)
    ensures EndpointInvalid in r <==> !AllWhitespace(apiEndpoint) && !IsValidUrl(parse, apiEndpoint)
    ensures ApiKeyEmpty in r <==> AllWhitespace(apiKey)
    ensures ModelNameEmpty in r <==> AllWhitespace(modelName)
    ensures DuplicateName in r <==> exists i :: 0 <= i < |models| && models[i].name == name
    ensures IsSubsequence(r, CheckOrder) && Distinct(r) && |r| <= 6
  {
    var r := Findings(AllWhitespace(name), AllWhitespace(displayName), AllWhitespace(apiEndpoint), IsValidUrl(parse, apiEndpoint),
                      AllWhitespace(apiKey), AllWhitespace(modelName),
                      exists i :: 0 <= i < |models| && models[i].name == name);
    FindingsShape(r);
    r
  }

  /** Whether a stored model other than the one with `excludingId` has `name`. */
  predicate NameTaken(models: seq<CustomCloudModel>, name: string, excludingId: Option<Uuid>) {
    exists i :: 0 <= i < |models| && models[i].name == name && Some(models[i].id) != excludingId
  }

  /** The overload with `excludingId`: a stored model whose id equals
      `excludingId` is not counted as a duplicate. */
  function ValidateModelExcluding(models: seq<CustomCloudModel>, name: string, displayName: string,
                                  apiEndpoint: string, apiKey: string, modelName: string,
                                  parse: string -> Option<UrlParts>, excludingId: Option<Uuid>): (r: seq<ValidationError>)
    ensures NameEmpty in r <==> AllWhitespace(name)
    ensures DisplayNameEmpty in r <==> AllWhitespace(displayName)
    ensures EndpointEmpty in r <==> AllWhitespace(apiEndpoint)
    ensures EndpointInvalid in r <==> !AllWhitespace(apiEndpoint) && !IsValidUrl(parse, apiEndpoint)
    ensures ApiKeyEmpty in r <==> AllWhitespace(apiKey)
    ensures ModelNameEmpty in r <==> AllWhitespace(modelName)
    ensures DuplicateName in r <==> NameTaken(models, name, excludingId)
    ensures IsSubsequence(r, CheckOrder) && Distinct(r) && |r| <= 6
  {
    var r := Findings(AllWhitespace(name), AllWhitespace(displayName), AllWhitespace(apiEndpoint), IsValidUrl(parse, apiEndpoint),
                      AllWhitespace(apiKey), AllWhitespace(modelName),
                      NameTaken(models, name, excludingId));
    FindingsShape(r);
    r
  }

  /** With no id to exclude, the two overloads agree. */
  lemma ExcludingNothingAgrees(models: seq<CustomCloudModel>, name: string, displayName: string,
                               apiEndpoint: string, apiKey: string, modelName: string,
                               parse: string -> Option<UrlParts>)
    ensures ValidateModelExcluding(models, name, displayName, apiEndpoint, apiKey, modelName, parse, None)
            == ValidateModel(models, name, displayName, apiEndpoint, apiKey, modelName, parse)
  {
  }

  /** Validation passes exactly when every check passes. */
  lemma ValidateModelEmptyIff(models: seq<CustomCloudModel>, name: string, displayName: string,
                              apiEndpoint: string, apiKey: string, modelName: string,
                              parse: string -> Option<UrlParts>)
    ensures ValidateModel(models, name, displayName, apiEndpoint, apiKey, modelName, parse) == [] <==>
              !AllWhitespace(name) && !AllWhitespace(displayName) && !AllWhitespace(apiEndpoint)
              && IsValidUrl(parse, apiEndpoint) && !AllWhitespace(apiKey) && !AllWhitespace(modelName)
              && forall i :: 0 <= i < |models| ==> models[i].name != name
  {
    var r := ValidateModel(models, name, displayName, apiEndpoint, apiKey, modelName, parse);
    if r != [] {
      SubsequenceElements(r, CheckOrder);
      assert r[0] in CheckOrder;
    }
  }

  /** The user-visible messages, in the order of the findings. */
  function Messages(errors: seq<ValidationError>): (r: seq<string>)
    ensures |r| == |errors|
    ensures forall i :: 0 <= i < |errors| ==> r[i] == errors[i].Message()
  {
    seq(|errors|, i requires 0 <= i < |errors| => errors[i].Message())
  }

  lemma MessageInjective(a: ValidationError, b: ValidationError)
    requires a != b
    ensures a.Message() != b.Message()
  {
  }

  /** Findings that repeat nothing yield messages that repeat nothing. */
  lemma MessagesDistinct(errors: seq<ValidationError>)
    requires Distinct(errors)
    ensures Distinct(Messages(errors))
  {
    forall i, j | 0 <= i < j < |errors|
      ensures Messages(errors)[i] != Messages(errors)[j]
    {
      MessageInjective(errors[i], errors[j]);
    }
  }

  /** The `[String]` that `validateModel` returns: each message at most
      once, at most six of them, and none exactly when every check passes. */
  lemma ValidationMessages(models: seq<CustomCloudModel>, name: string, displayName: string,
                           apiEndpoint: string, apiKey: string, modelName: string,
                           parse: string -> Option<UrlParts>)
    ensures var m := Messages(ValidateModel(models, name, displayName, apiEndpoint, apiKey, modelName, parse));
            && Distinct(m) && |m| <= 6
            && (m == [] <==>
                  !AllWhitespace(name) && !AllWhitespace(displayName) && !AllWhitespace(apiEndpoint)
                  && IsValidUrl(parse, apiEndpoint) && !AllWhitespace(apiKey) && !AllWhitespace(modelName)
                  && forall i :: 0 <= i < |models| ==> models[i].name != name)
  {
    var r := ValidateModel(models, name, displayName, apiEndpoint, apiKey, modelName, parse);
    MessagesDistinct(r);
    ValidateModelEmptyIff(models, name, displayName, apiEndpoint, apiKey, modelName, parse);
  }

  // ---------------------------------------------------------------------
  // The uniqueness invariant the validation protects

  predicate NamesUnique(models: seq<CustomCloudModel>) {
    forall i, j :: 0 <= i < j < |models| ==> models[i].name != models[j].name
  }

  predicate IdsUnique(models: seq<CustomCloudModel>) {
    forall i, j :: 0 <= i < j < |models| ==> models[i].id != models[j].id
  }

  /** Adding a model that passed `validateModel` keeps stored names unique. */
  lemma AddValidatedKeepsNamesUnique(models: seq<CustomCloudModel>, model: CustomCloudModel,
                                     parse: string -> Option<UrlParts>)
    requires NamesUnique(models)
    requires ValidateModel(models, model.name, model.displayName, model.apiEndpoint,
                           model.apiKey, model.modelName, parse) == []
    ensures NamesUnique(AddCustomModel(models, model))
  {
  }

  /** Updating with a model that passed the `excludingId` validation for its
      own id keeps stored names unique, as long as ids are unique. */
  lemma UpdateValidatedKeepsNamesUnique(models: seq<CustomCloudModel>, updated: CustomCloudModel,
                                        parse: string -> Option<UrlParts>)
    requires NamesUnique(models) && IdsUnique(models)
    requires ValidateModelExcluding(models, updated.name, updated.displayName, updated.apiEndpoint,
                                    updated.apiKey, updated.modelName, parse, Some(updated.id)) == []
    ensures NamesUnique(UpdateCustomModel(models, updated))
    ensures IdsUnique(UpdateCustomModel(models, updated))
  {
    assert !NameTaken(models, updated.name, Some(updated.id));
    match FirstIndexOf(models, updated.id)
    case None =>
    case Some(k) =>
      var r := models[k := updated];
      forall i, j | 0 <= i < j < |r| ensures r[i].name != r[j].name {
        if i == k || j == k {
          var other := if i == k then j else i;
          assert models[other].id != updated.id;
        }
      }
  }
}
