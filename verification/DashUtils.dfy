/**
 * The form bookkeeping of utils/utils_dash.py: the ordinal labels, the job dropdown options and the
 * fold of the submitted form states into a beneficiary-profile dictionary.
 */
module DashUtils {
  import opened Basics

  // ---------------------------------------------------------------------------
  // list_ordinals

  const Ordinals: seq<string> := ["First", "Second", "Third", "Fourth", "Fifth", "Sixth"]

  function LowerChar(c: char): char {
    if 'A' <= c <= 'Z' then (c as int + 32) as char else c
  }

  /** `str.lower` on the ASCII letters. */
  function Lower(s: string): (r: string) {
    seq(|s|, i requires 0 <= i < |s| => LowerChar(s[i]))
  }

  /**
   * The six ordinal words, lower-cased in place when `lower` holds; the list keeps its length and
   * its order either way.
   */
  method ListOrdinals(lower: bool) returns (ordinals: seq<string>)
    ensures |ordinals| == 6
    ensures !lower ==> ordinals == ["First", "Second", "Third", "Fourth", "Fifth", "Sixth"]
    ensures lower ==> ordinals == ["first", "second", "third", "fourth", "fifth", "sixth"]
  {
    var a := new string[6];
    a[0], a[1], a[2], a[3], a[4], a[5] := "First", "Second", "Third", "Fourth", "Fifth", "Sixth";
    if lower {
      for i := 0 to a.Length
        invariant forall k :: 0 <= k < i ==> a[k] == Lower(Ordinals[k])
        invariant forall k :: i <= k < a.Length ==> a[k] == Ordinals[k]
      {
        a[i] := Lower(a[i]);
      }
      LowerOrdinals();
    }
    ordinals := a[..];
  }

  lemma LowerOrdinals()
    ensures Lower("First") == "first" && Lower("Second") == "second" && Lower("Third") == "third"
    ensures Lower("Fourth") == "fourth" && Lower("Fifth") == "fifth" && Lower("Sixth") == "sixth"
  {
  }

  // ---------------------------------------------------------------------------
  // _load_target_job_options

  /** A dropdown option `{'label': display, 'value': value}`. */
  datatype DropdownOption = DropdownOption(display: string, value: string)

  /** One option per job of the occupation group, in order; an unknown group is a KeyError. */
  function LoadTargetJobOptions(jobDict: map<string, seq<string>>, occGroup: string)
    : (r: Result<seq<DropdownOption>, string>)
    ensures r.Err? <==> occGroup !in jobDict
    ensures r.Err? ==> r.error == occGroup
    ensures r.Ok? ==>
      |r.value| == |jobDict[occGroup]| &&
      (forall i :: 0 <= i < |r.value| ==>
        r.value[i].display == jobDict[occGroup][i] && r.value[i].value == jobDict[occGroup][i])
  {
    if occGroup !in jobDict then Err(occGroup)
    else
      var jobs := jobDict[occGroup];
      Ok(seq(|jobs|, i requires 0 <= i < |jobs| => DropdownOption(jobs[i], jobs[i])))
  }

  // ---------------------------------------------------------------------------
  // extract_ben_dict

  /** A value held by a form component or stored in the profile dictionary. */
  datatype Val = Null | Num(n: int) | Str(s: string) | List(items: seq<Val>)

  /** One Dash State entry: the pattern id's `type` and `index`, and the component's value. */
  datatype StateDict = StateDict(kind: string, index: int, value: Val)

  /** The TypeErrors Python raises on ill-typed form values. */
  datatype ProfileError = NotIterable(value: Val) | NotText(value: Val)

  /** The profile dictionary and the dropdown values collected so far. */
  datatype Scan = Scan(ben: map<string, Val>, usStates: seq<Val>, counties: seq<Val>)

  const Flag: Val := List([Num(1)])

  /** Python's `text in value`: membership for a list, substring for a string; other values raise. */
  function In(text: string, v: Val): (r: Result<bool, ProfileError>)
    ensures r.Err? <==> !(v.List? || v.Str?)
  {
    match v
    case List(items) => Ok(Str(text) in items)
    case Str(s) => Ok(Contains(s, text))
    case _ => Err(NotIterable(v))
  }

  /** `prefix + str(n)`. */
  function Key(prefix: string, n: int): (k: string)
    ensures StartsWith(k, prefix)
  {
    assert (prefix + IntToString(n))[..|prefix|] == prefix;
    prefix + IntToString(n)
  }

  /** Adults are numbered from their own index, children six places further on. */
  function Offset(kind: string): int {
    if Contains(kind, "adult") then 0 else 6
  }

  /** The form fields extract_ben_dict recognises, by the test their state type passes. */
  datatype Field =
    | AgeInput | MarriedCheckbox | DisabilityCheckbox | SsdiInput | SsiAnswer | WorkExpensesInput
    | StateDropdown | CountyDropdown | Unrecognised

  /** The if/elif chain on a state's type, tests in the order the code makes them. */
  function Classify(kind: string): (f: Field)
    ensures f == AgeInput <==> kind == "age-input-adult" || kind == "age-input-kid"
    ensures f == MarriedCheckbox <==> kind == "married-adult-checkbox"
    ensures f == StateDropdown <==> kind == "state-dropdown"
    ensures f == CountyDropdown <==> kind == "county-dropdown"
  {
    ExactIdsNotDisability();
    if kind == "age-input-adult" || kind == "age-input-kid" then AgeInput
    else if kind == "married-adult-checkbox" then MarriedCheckbox
    else if Contains(kind, "disabilities") then DisabilityCheckbox
    else if kind == "ssdi-adult" then SsdiInput
    else if kind == "anyone-SSI" then SsiAnswer
    else if kind == "disab-work-expenses" then WorkExpensesInput
    else if kind == "state-dropdown" then StateDropdown
    else if kind == "county-dropdown" then CountyDropdown
    else Unrecognised
  }

  /** No form id matched by exact name before or after the disability test mentions "disabilities". */
  lemma ExactIdsNotDisability()
    ensures !Contains("age-input-adult", "disabilities") && !Contains("age-input-kid", "disabilities")
    ensures !Contains("married-adult-checkbox", "disabilities")
    ensures !Contains("state-dropdown", "disabilities") && !Contains("county-dropdown", "disabilities")
  {
    NotContains("state-dropdown", "disabilities", 4);
    NotContains("county-dropdown", "disabilities", 4);
    NotContains("age-input-adult", "disabilities", 4);
    NotContains("age-input-kid", "disabilities", 4);
    NotContains("married-adult-checkbox", "disabilities", 2);
  }

  /** The effect of one form state on the profile dictionary and the dropdown lists. */
  function Step(acc: Scan, sd: StateDict): (r: Result<Scan, ProfileError>)
    ensures r.Err? <==> Classify(sd.kind) == DisabilityCheckbox && !(sd.value.List? || sd.value.Str?)
    ensures r.Ok? ==>
      r.value.usStates == acc.usStates + Picked(sd, "state-dropdown") &&
      r.value.counties == acc.counties + Picked(sd, "county-dropdown")
  {
    match Classify(sd.kind)
    case AgeInput =>
      Ok(acc.(ben := acc.ben[Key("agePerson", sd.index + Offset(sd.kind)) := List([sd.value])]))
    case MarriedCheckbox =>
      if sd.value == List([Str("Married")]) then Ok(acc.(ben := acc.ben["married" := Flag])) else Ok(acc)
    case DisabilityCheckbox => DisabilityStep(acc, sd)
    case SsdiInput =>
      Ok(acc.(ben := acc.ben[Key("ssdiPIA", sd.index) := List([sd.value])]))
    case SsiAnswer =>
      if sd.value == Str("Yes") then Ok(acc.(ben := acc.ben["prev_ssi" := Flag])) else Ok(acc)
    case WorkExpensesInput =>
      Ok(acc.(ben := acc.ben["disab.work.exp" := List([Num(0)])]))
    case StateDropdown =>
      Ok(acc.(usStates := acc.usStates + [sd.value]))
    case CountyDropdown =>
      Ok(acc.(counties := acc.counties + [sd.value]))
    case Unrecognised => Ok(acc)
  }

  /**
   * A disability checkbox: "Disabled" among the checked values sets disability{i+offset}; otherwise
   * "Legally Blind" sets blind{i} for an adult. A value that is neither a list nor a string raises.
   */
  function DisabilityStep(acc: Scan, sd: StateDict): (r: Result<Scan, ProfileError>)
    ensures r.Err? <==> !(sd.value.List? || sd.value.Str?)
    ensures r.Ok? ==> r.value.usStates == acc.usStates && r.value.counties == acc.counties
  {
    match In("Disabled", sd.value)
    case Err(e) => Err(e)
    case Ok(disabled) =>
      if disabled then Ok(acc.(ben := acc.ben[Key("disability", sd.index + Offset(sd.kind)) := Flag]))
      else if In("Legally Blind", sd.value) == Ok(true) && Offset(sd.kind) == 0 then
        Ok(acc.(ben := acc.ben[Key("blind", sd.index + Offset(sd.kind)) := Flag]))
      else Ok(acc)
  }

  /** The states of one list applied in order; the first error stops the fold. */
  function Run(acc: Scan, sds: seq<StateDict>): Result<Scan, ProfileError>
    decreases sds
  {
    if sds == [] then Ok(acc)
    else
      match Step(acc, sds[0])
      case Err(e) => Err(e)
      case Ok(next) => Run(next, sds[1..])
  }

  /** Continues a partial fold with the remaining state lists. */
  function Then(res: Result<Scan, ProfileError>, lists: seq<seq<StateDict>>): Result<Scan, ProfileError>
    decreases lists, 2
  {
    match res
    case Err(e) => Err(e)
    case Ok(acc) => RunLists(acc, lists)
  }

  /** All state lists applied in order. */
  function RunLists(acc: Scan, lists: seq<seq<StateDict>>): Result<Scan, ProfileError>
    decreases lists, 1
  {
    if lists == [] then Ok(acc) else Then(Run(acc, lists[0]), lists[1..])
  }

  /** `', '.join((county, state))`, which raises unless both are strings. */
  function JoinPair(county: Val, state: Val): Result<string, ProfileError> {
    if !county.Str? then Err(NotText(county))
    else if !state.Str? then Err(NotText(state))
    else Ok(county.s + ", " + state.s)
  }

  /** `[', '.join(t) for t in zip(counties, states)]`: paired by position, cut to the shorter list. */
  function JoinPairs(counties: seq<Val>, states: seq<Val>): (r: Result<seq<string>, ProfileError>)
    ensures r.Ok? <==> forall i :: 0 <= i < |counties| && i < |states| ==> counties[i].Str? && states[i].Str?
    ensures r.Ok? ==>
      |r.value| == (if |counties| < |states| then |counties| else |states|) &&
      forall i :: 0 <= i < |r.value| ==> r.value[i] == counties[i].s + ", " + states[i].s
  {
    if counties == [] || states == [] then Ok([])
    else
      match JoinPair(counties[0], states[0])
      case Err(e) => Err(e)
      case Ok(p) =>
        match JoinPairs(counties[1..], states[1..])
        case Err(e) => Err(e)
        case Ok(rest) => Ok([p] + rest)
  }

  /**
   * The "county, state" locations: paired by position, cut to the shorter list, each kept once at its
   * first occurrence.
   */
  function Locations(counties: seq<Val>, states: seq<Val>): (r: Result<seq<string>, ProfileError>)
    ensures r.Ok? <==> JoinPairs(counties, states).Ok?
    ensures r.Ok? ==>
      var pairs := JoinPairs(counties, states).value;
      Distinct(r.value) &&
      (forall x :: x in r.value <==> x in pairs) &&
      forall p, q :: 0 <= p < q < |r.value| ==> FirstIndex(pairs, r.value[p]) < FirstIndex(pairs, r.value[q])
  {
    match JoinPairs(counties, states)
    case Err(e) => Err(e)
    case Ok(pairs) =>
      DedupOrder(pairs);
      Ok(Dedup(pairs))
  }

  function StrList(xs: seq<string>): (r: seq<Val>)
    ensures |r| == |xs| && forall i :: 0 <= i < |xs| ==> r[i] == Str(xs[i])
  {
    seq(|xs|, i requires 0 <= i < |xs| => Str(xs[i]))
  }

  /** The profile dictionary extract_ben_dict builds from the default schema and the form states. */
  function BenDict(statesList: seq<seq<StateDict>>, defaultSchema: map<string, Val>)
    : Result<map<string, Val>, ProfileError>
  {
    match RunLists(Scan(defaultSchema, [], []), statesList)
    case Err(e) => Err(e)
    case Ok(acc) =>
      match Locations(acc.counties, acc.usStates)
      case Err(e) => Err(e)
      case Ok(locations) => Ok(acc.ben["locations" := List(StrList(locations))])
  }

  /**
   * extract_ben_dict: copies the default schema, walks every non-empty list of form states, updates
   * the dictionary entry each recognised state type names, collects the dropdown values and finally
   * stores the deduplicated locations.
   */
  method ExtractBenDict(statesList: seq<seq<StateDict>>, defaultSchema: map<string, Val>)
    returns (r: Result<map<string, Val>, ProfileError>)
    ensures r == BenDict(statesList, defaultSchema)
  {
    var benDict := defaultSchema;
    var usStates: seq<Val> := [];
    var counties: seq<Val> := [];
    ghost var target := RunLists(Scan(defaultSchema, [], []), statesList);
    for i := 0 to |statesList|
      invariant RunLists(Scan(benDict, usStates, counties), statesList[i..]) == target
    {
      var stateLs := statesList[i];
      assert statesList[i..][1..] == statesList[i + 1..];
      if stateLs != [] {
        for j := 0 to |stateLs|
          invariant Then(Run(Scan(benDict, usStates, counties), stateLs[j..]), statesList[i + 1..]) == target
        {
          assert stateLs[j..][1..] == stateLs[j + 1..];
          var next := ApplyStateDict(Scan(benDict, usStates, counties), stateLs[j]);
          if next.Err? {
            return Err(next.error);
          }
          benDict, usStates, counties := next.value.ben, next.value.usStates, next.value.counties;
        }
      }
    }
    var locations := Locations(counties, usStates);
    if locations.Err? {
      return Err(locations.error);
    }
    benDict := benDict["locations" := List(StrList(locations.value))];
    r := Ok(benDict);
  }

  /** The body of the inner loop of extract_ben_dict: one form state applied to the dictionary and lists. */
  method ApplyStateDict(acc: Scan, sd: StateDict) returns (r: Result<Scan, ProfileError>)
    ensures r == Step(acc, sd)
  {
    var benDict, usStates, counties := acc.ben, acc.usStates, acc.counties;
    var kind := sd.kind;
    if kind == "age-input-adult" || kind == "age-input-kid" {
      var offset := if Contains(kind, "adult") then 0 else 6;
      benDict := benDict[Key("agePerson", sd.index + offset) := List([sd.value])];
    } else if kind == "married-adult-checkbox" {
      if sd.value == List([Str("Married")]) {
        benDict := benDict["married" := List([Num(1)])];
      }
    } else if Contains(kind, "disabilities") {
      var offset := if Contains(kind, "adult") then 0 else 6;
      var disabled := In("Disabled", sd.value);
      if disabled.Err? {
        return Err(disabled.error);
      }
      if disabled.value {
        benDict := benDict[Key("disability", sd.index + offset) := List([Num(1)])];
      } else if In("Legally Blind", sd.value) == Ok(true) {
        if offset == 0 {
          benDict := benDict[Key("blind", sd.index + offset) := List([Num(1)])];
        }
      }
    } else if kind == "ssdi-adult" {
      benDict := benDict[Key("ssdiPIA", sd.index) := List([sd.value])];
    } else if kind == "anyone-SSI" {
      if sd.value == Str("Yes") {
        benDict := benDict["prev_ssi" := List([Num(1)])];
      }
    } else if kind == "disab-work-expenses" {
      benDict := benDict["disab.work.exp" := List([Num(0)])];
    } else if kind == "state-dropdown" {
      usStates := usStates + [sd.value];
    } else if kind == "county-dropdown" {
      counties := counties + [sd.value];
    }
    r := Ok(Scan(benDict, usStates, counties));
  }

  // ---------------------------------------------------------------------------
  // Properties of the profile fold

  /** The keys extract_ben_dict may write; every other key keeps its default value. */
  predicate IsProfileKey(k: string) {
    k == "married" || k == "prev_ssi" || k == "disab.work.exp" || k == "locations" ||
    StartsWith(k, "agePerson") || StartsWith(k, "disability") || StartsWith(k, "blind") ||
    StartsWith(k, "ssdiPIA")
  }

  /** The dictionary `after` extends `before` and differs from it only on profile keys. */
  predicate OnlyProfileKeysChange(before: map<string, Val>, after: map<string, Val>) {
    (forall k :: k in before ==> k in after) &&
    (forall k :: k in after && !IsProfileKey(k) ==> k in before && after[k] == before[k])
  }

  lemma StepOnlyProfileKeys(acc: Scan, sd: StateDict)
    ensures Step(acc, sd).Ok? ==> OnlyProfileKeysChange(acc.ben, Step(acc, sd).value.ben)
  {
  }

  lemma {:induction false} RunOnlyProfileKeys(acc: Scan, sds: seq<StateDict>)
    ensures Run(acc, sds).Ok? ==> OnlyProfileKeysChange(acc.ben, Run(acc, sds).value.ben)
    decreases sds
  {
    if sds != [] {
      StepOnlyProfileKeys(acc, sds[0]);
      var step := Step(acc, sds[0]);
      if step.Ok? {
        RunOnlyProfileKeys(step.value, sds[1..]);
      }
    }
  }

  lemma {:induction false} RunListsOnlyProfileKeys(acc: Scan, lists: seq<seq<StateDict>>)
    ensures RunLists(acc, lists).Ok? ==> OnlyProfileKeysChange(acc.ben, RunLists(acc, lists).value.ben)
    decreases lists
  {
    if lists != [] {
      RunOnlyProfileKeys(acc, lists[0]);
      var run := Run(acc, lists[0]);
      if run.Ok? {
        RunListsOnlyProfileKeys(run.value, lists[1..]);
      }
    }
  }

  /**
   * The profile keeps every key of the default schema, and every key that no recognised state type
   * writes keeps its default value.
   */
  lemma UntouchedKeysKeepDefaults(statesList: seq<seq<StateDict>>, defaultSchema: map<string, Val>)
    ensures BenDict(statesList, defaultSchema).Ok? ==>
      OnlyProfileKeysChange(defaultSchema, BenDict(statesList, defaultSchema).value)
  {
    RunListsOnlyProfileKeys(Scan(defaultSchema, [], []), statesList);
  }

  /** Empty state lists are skipped: removing them changes nothing. */
  lemma EmptyListSkipped(acc: Scan, before: seq<seq<StateDict>>, after: seq<seq<StateDict>>)
    ensures RunLists(acc, before + [[]] + after) == RunLists(acc, before + after)
    decreases before
  {
    if before == [] {
      var lists := before + [[]] + after;
      assert lists == [[]] + after;
      assert lists[0] == [] && lists[1..] == after;
      assert Run(acc, lists[0]) == Ok(acc);
      assert RunLists(acc, lists) == Then(Ok(acc), after) == RunLists(acc, after);
      assert before + after == after;
    } else {
      assert (before + [[]] + after)[1..] == before[1..] + [[]] + after;
      assert (before + after)[1..] == before[1..] + after;
      var run := Run(acc, before[0]);
      if run.Ok? {
        EmptyListSkipped(run.value, before[1..], after);
      }
    }
  }

  /** Adult form ids number people from their own index, child ids six places further on. */
  lemma AgeIdOffsets()
    ensures Offset("age-input-adult") == 0 && Offset("age-input-kid") == 6
  {
    ContainsMiddle("age-input-", "adult", "");
    assert "age-input-" + "adult" + "" == "age-input-adult";
    NotContains("age-input-kid", "adult", 3);
  }

  lemma DisabilityIdOffsets()
    ensures Offset("disabilities-adult-checkbox") == 0 && Offset("disabilities-kid-checkbox") == 6
  {
    ContainsMiddle("disabilities-", "adult", "-checkbox");
    assert "disabilities-" + "adult" + "-checkbox" == "disabilities-adult-checkbox";
    NotContains("disabilities-kid-checkbox", "adult", 2);
  }

  /** Both disability checkboxes land in the disability branch. */
  lemma DisabilityIdFields()
    ensures Classify("disabilities-adult-checkbox") == DisabilityCheckbox
    ensures Classify("disabilities-kid-checkbox") == DisabilityCheckbox
  {
    ContainsMiddle("", "disabilities", "-adult-checkbox");
    assert "" + "disabilities" + "-adult-checkbox" == "disabilities-adult-checkbox";
    ContainsMiddle("", "disabilities", "-kid-checkbox");
    assert "" + "disabilities" + "-kid-checkbox" == "disabilities-kid-checkbox";
  }

  lemma SsdiIdField()
    ensures Classify("ssdi-adult") == SsdiInput
  {
    NotContains("ssdi-adult", "disabilities", 4);
  }

  lemma SsiIdField()
    ensures Classify("anyone-SSI") == SsiAnswer
  {
    NotContains("anyone-SSI", "disabilities", 4);
  }

  lemma WorkExpensesIdField()
    ensures Classify("disab-work-expenses") == WorkExpensesInput
  {
    NotContains("disab-work-expenses", "disabilities", 6);
  }

  /** An adult's age is stored under agePerson{i}, a child's under agePerson{i+6}, as a one-item list. */
  lemma AgeStored(acc: Scan, i: int, v: Val)
    ensures Step(acc, StateDict("age-input-adult", i, v)) ==
      Ok(acc.(ben := acc.ben[Key("agePerson", i) := List([v])]))
    ensures Step(acc, StateDict("age-input-kid", i, v)) ==
      Ok(acc.(ben := acc.ben[Key("agePerson", i + 6) := List([v])]))
  {
    AgeIdOffsets();
  }

  /** `married` becomes [1] exactly when the checkbox value is ["Married"]; otherwise nothing changes. */
  lemma MarriedStored(acc: Scan, i: int, v: Val)
    ensures Step(acc, StateDict("married-adult-checkbox", i, v)) ==
      Ok(if v == List([Str("Married")]) then acc.(ben := acc.ben["married" := Flag]) else acc)
  {
  }

  /**
   * An adult's disability checkbox: "Disabled" sets disability{i}; otherwise "Legally Blind" sets
   * blind{i}.
   */
  lemma AdultDisabilityStored(acc: Scan, i: int, items: seq<Val>)
    ensures Step(acc, StateDict("disabilities-adult-checkbox", i, List(items))) ==
      Ok(if Str("Disabled") in items then acc.(ben := acc.ben[Key("disability", i) := Flag])
         else if Str("Legally Blind") in items then acc.(ben := acc.ben[Key("blind", i) := Flag])
         else acc)
  {
    DisabilityIdOffsets();
    DisabilityIdFields();
  }

  /** A child's disability checkbox: "Disabled" sets disability{i+6}; a child's blindness is ignored. */
  lemma KidDisabilityStored(acc: Scan, i: int, items: seq<Val>)
    ensures Step(acc, StateDict("disabilities-kid-checkbox", i, List(items))) ==
      Ok(if Str("Disabled") in items then acc.(ben := acc.ben[Key("disability", i + 6) := Flag]) else acc)
  {
    DisabilityIdOffsets();
    DisabilityIdFields();
  }

  /**
   * SSDI amounts go to ssdiPIA{i} with no offset, "Yes" to the SSI question sets prev_ssi, and the
   * disability work expenses entry is always stored as [0], whatever amount was typed.
   */
  lemma SsdiSsiWorkExpensesStored(acc: Scan, i: int, v: Val)
    ensures Step(acc, StateDict("ssdi-adult", i, v)) ==
      Ok(acc.(ben := acc.ben[Key("ssdiPIA", i) := List([v])]))
    ensures Step(acc, StateDict("anyone-SSI", i, v)) ==
      Ok(if v == Str("Yes") then acc.(ben := acc.ben["prev_ssi" := Flag]) else acc)
    ensures Step(acc, StateDict("disab-work-expenses", i, v)) ==
      Ok(acc.(ben := acc.ben["disab.work.exp" := List([Num(0)])]))
  {
    SsdiIdField();
    SsiIdField();
    WorkExpensesIdField();
  }

  /** `s` does not contain `sub`, witnessed by a character of `sub` that `s` lacks. */
  lemma NotContains(s: string, sub: string, k: nat)
    requires k < |sub| && sub[k] !in s
    ensures !Contains(s, sub)
  {
    if Contains(s, sub) {
      ContainsChars(s, sub);
    }
  }

  /** The values of the states of one kind, in order. */
  function Picked(sd: StateDict, kind: string): seq<Val> {
    if sd.kind == kind then [sd.value] else []
  }

  function ValuesOf(sds: seq<StateDict>, kind: string): seq<Val> {
    if sds == [] then [] else Picked(sds[0], kind) + ValuesOf(sds[1..], kind)
  }

  function ListsValuesOf(lists: seq<seq<StateDict>>, kind: string): seq<Val> {
    if lists == [] then [] else ValuesOf(lists[0], kind) + ListsValuesOf(lists[1..], kind)
  }

  /** Associativity of concatenation, spelled out only to help the verifier regroup the collected values. */
  lemma AppendAssoc(a: seq<Val>, b: seq<Val>, c: seq<Val>)
    ensures a + b + c == a + (b + c)
  {
  }

  lemma {:induction false} RunCollectsDropdowns(acc: Scan, sds: seq<StateDict>)
    ensures Run(acc, sds).Ok? ==>
      Run(acc, sds).value.usStates == acc.usStates + ValuesOf(sds, "state-dropdown") &&
      Run(acc, sds).value.counties == acc.counties + ValuesOf(sds, "county-dropdown")
    decreases sds
  {
    if sds != [] {
      var step := Step(acc, sds[0]);
      if step.Ok? {
        var next := step.value;
        var rest := Run(next, sds[1..]);
        assert Run(acc, sds) == rest;
        RunCollectsDropdowns(next, sds[1..]);
        if rest.Ok? {
          AppendAssoc(acc.usStates, Picked(sds[0], "state-dropdown"), ValuesOf(sds[1..], "state-dropdown"));
          AppendAssoc(acc.counties, Picked(sds[0], "county-dropdown"), ValuesOf(sds[1..], "county-dropdown"));
        }
      }
    }
  }

  lemma {:induction false} RunListsCollectsDropdowns(acc: Scan, lists: seq<seq<StateDict>>)
    ensures RunLists(acc, lists).Ok? ==>
      RunLists(acc, lists).value.usStates == acc.usStates + ListsValuesOf(lists, "state-dropdown") &&
      RunLists(acc, lists).value.counties == acc.counties + ListsValuesOf(lists, "county-dropdown")
    decreases lists
  {
    if lists != [] {
      RunCollectsDropdowns(acc, lists[0]);
      var run := Run(acc, lists[0]);
      assert RunLists(acc, lists) == Then(run, lists[1..]);
      if run.Ok? {
        assert RunLists(acc, lists) == RunLists(run.value, lists[1..]);
        RunListsCollectsDropdowns(run.value, lists[1..]);
        AppendAssoc(acc.usStates, ValuesOf(lists[0], "state-dropdown"), ListsValuesOf(lists[1..], "state-dropdown"));
        AppendAssoc(acc.counties, ValuesOf(lists[0], "county-dropdown"), ListsValuesOf(lists[1..], "county-dropdown"));
      }
    }
  }

  /**
   * The stored locations are the county and state dropdown values, in form order, paired by
   * position, cut to the shorter list, each "county, state" kept once at its first occurrence.
   */
  lemma LocationsFromDropdowns(statesList: seq<seq<StateDict>>, defaultSchema: map<string, Val>)
    ensures BenDict(statesList, defaultSchema).Ok? ==>
      var counties := ListsValuesOf(statesList, "county-dropdown");
      var states := ListsValuesOf(statesList, "state-dropdown");
      Locations(counties, states).Ok? &&
      BenDict(statesList, defaultSchema).value["locations"] == List(StrList(Locations(counties, states).value))
  {
    var start := Scan(defaultSchema, [], []);
    RunListsCollectsDropdowns(start, statesList);
    var run := RunLists(start, statesList);
    if run.Ok? {
      assert [] + ListsValuesOf(statesList, "county-dropdown") == ListsValuesOf(statesList, "county-dropdown");
      assert [] + ListsValuesOf(statesList, "state-dropdown") == ListsValuesOf(statesList, "state-dropdown");
    }
  }
}
