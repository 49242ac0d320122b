/**
  The hub picker (`HubSelectDropdown`): turning the options react-select
  reports as chosen back into hub records, formatting the current selection
  as options, and refreshing the suggestion list from what is typed.
 */
module HubSelect {
  import opened Common

  /** The remaining fields of a hub record, which the picker only carries along. */
  type HubDetails(==, !new)

  datatype Hub = Hub(id: Id, name: string, details: HubDetails)
  datatype HubSuggestion = HubSuggestion(hub: Hub)

  /** A react-select option (`label` is `displayLabel` here). */
  datatype SelectOption = SelectOption(displayLabel: string, value: Id)

  /**
    What react-select reports on a change: a list of options (or null) when
    the picker is multi-select, one option (or null) when it is not.
   */
  datatype Selection = MultiValue(values: Option<seq<SelectOption>>) | SingleValue(value: Option<SelectOption>)

  /** The query length from which suggestions are fetched and "No hubs found" is shown. */
  const MinQueryLength: nat := 3

  /** `formattedSelectedHubs`: one option per selected hub, in order. */
  function FormattedSelectedHubs(selectedHubs: seq<Hub>): (r: seq<SelectOption>)
    ensures |r| == |selectedHubs|
    ensures forall i :: 0 <= i < |r| ==> r[i].displayLabel == selectedHubs[i].name && r[i].value == selectedHubs[i].id
  {
    MapSeq((h: Hub) => SelectOption(h.name, h.id), selectedHubs)
  }

  /** `noOptionsMessage`. */
  function NoOptionsMessage(inputValue: string): (m: string)
    ensures m == "No hubs found" <==> |inputValue| >= MinQueryLength
    ensures m == "Type to search hubs" <==> |inputValue| < MinQueryLength
  {
    if |inputValue| >= MinQueryLength then "No hubs found" else "Type to search hubs"
  }

  /** `allAvailableHubs`: the suggestions' hubs, then the already selected hubs. */
  function AvailableHubs(suggestedHubs: seq<HubSuggestion>, selectedHubs: seq<Hub>): (r: seq<Hub>)
    ensures |r| == |suggestedHubs| + |selectedHubs|
    ensures forall i :: 0 <= i < |suggestedHubs| ==> r[i] == suggestedHubs[i].hub
    ensures forall i :: 0 <= i < |selectedHubs| ==> r[|suggestedHubs| + i] == selectedHubs[i]
  {
    MapSeq((s: HubSuggestion) => s.hub, suggestedHubs) + selectedHubs
  }

  /** `allAvailableHubs.find((h) => h.id === v.value)`. */
  function LookupHub(available: seq<Hub>, v: SelectOption): (r: Option<Hub>)
    ensures r.None? <==> forall h :: h in available ==> h.id != v.value
    ensures r.Some? ==> r.value in available && r.value.id == v.value
  {
    FindFirst(available, (h: Hub) => h.id == v.value)
  }

  /** `.filter((h) => ![undefined, null].includes(h))`. */
  function Present(xs: seq<Option<Hub>>): (r: seq<Hub>)
    ensures |r| <= |xs|
    ensures forall h :: h in r <==> Some(h) in xs
    ensures (forall i :: 0 <= i < |xs| ==> xs[i].Some?) ==>
              |r| == |xs| && forall i :: 0 <= i < |xs| ==> r[i] == xs[i].value
  {
    if xs == [] then []
    else
      var rest := Present(xs[1..]);
      assert forall i :: 1 <= i < |xs| ==> xs[i] == xs[1..][i - 1];
      assert forall o :: o in xs <==> o == xs[0] || o in xs[1..];
      if xs[0].Some? then [xs[0].value] + rest else rest
  }

  /** The hubs for a list of chosen options: look each one up, drop the misses. */
  function ResolveHubs(values: seq<SelectOption>, available: seq<Hub>): (r: seq<Hub>)
    ensures |r| <= |values|
  {
    Present(MapSeq((v: SelectOption) => LookupHub(available, v), values))
  }

  lemma PresentAppend(xs: seq<Option<Hub>>, ys: seq<Option<Hub>>)
    ensures Present(xs + ys) == Present(xs) + Present(ys)
  {
    if xs == [] {
      assert xs + ys == ys;
    } else {
      assert (xs + ys)[1..] == xs[1..] + ys;
      PresentAppend(xs[1..], ys);
    }
  }

  /**
    Resolution works option by option and keeps the order of the options: an
    option with a match contributes exactly the first matching hub, an option
    without one contributes nothing.
   */
  lemma {:induction false} ResolveHubsAppend(a: seq<SelectOption>, b: seq<SelectOption>, available: seq<Hub>)
    ensures ResolveHubs(a + b, available) == ResolveHubs(a, available) + ResolveHubs(b, available)
  {
    var f := (v: SelectOption) => LookupHub(available, v);
    MapSeqAppend(f, a, b);
    PresentAppend(MapSeq(f, a), MapSeq(f, b));
  }

  lemma ResolveOne(v: SelectOption, available: seq<Hub>)
    ensures ResolveHubs([v], available) == match LookupHub(available, v) case Some(h) => [h] case None => []
  {
    var f := (v: SelectOption) => LookupHub(available, v);
    assert MapSeq(f, [v]) == [LookupHub(available, v)];
    assert [LookupHub(available, v)][1..] == [];
  }

  /** Every resolved hub is the first available hub carrying the id of some chosen option. */
  lemma ResolvedHubsAreFirstMatches(values: seq<SelectOption>, available: seq<Hub>, h: Hub)
    requires h in ResolveHubs(values, available)
    ensures exists v :: v in values && LookupHub(available, v) == Some(h) && h.id == v.value
  {
    var xs := MapSeq((v: SelectOption) => LookupHub(available, v), values);
    assert Some(h) in xs;
    var i :| 0 <= i < |xs| && xs[i] == Some(h);
    assert values[i] in values;
  }

  /** When every option has a match, one hub comes back per option, in order. */
  lemma AllMatchedKeepsLength(values: seq<SelectOption>, available: seq<Hub>)
    requires forall v :: v in values ==> LookupHub(available, v).Some?
    ensures |ResolveHubs(values, available)| == |values|
    ensures forall i :: 0 <= i < |values| ==> Some(ResolveHubs(values, available)[i]) == LookupHub(available, values[i])
  {
    var xs := MapSeq((v: SelectOption) => LookupHub(available, v), values);
    assert forall i :: 0 <= i < |xs| ==> xs[i].Some? by {
      forall i | 0 <= i < |xs| ensures xs[i].Some? {
        assert values[i] in values;
      }
    }
  }

  /** A suggested hub wins over an already selected hub with the same id. */
  lemma SuggestionWins(suggestedHubs: seq<HubSuggestion>, selectedHubs: seq<Hub>, v: SelectOption, k: nat)
    requires k < |suggestedHubs| && suggestedHubs[k].hub.id == v.value
    requires forall j :: 0 <= j < k ==> suggestedHubs[j].hub.id != v.value
    ensures LookupHub(AvailableHubs(suggestedHubs, selectedHubs), v) == Some(suggestedHubs[k].hub)
  {
    var p := (h: Hub) => h.id == v.value;
    var hubs := MapSeq((s: HubSuggestion) => s.hub, suggestedHubs);
    FindFirstAt(hubs, p, k);
    FindFirstConcat(hubs, selectedHubs, p);
  }

  /** The error `v.value` raises when `v` is null. */
  const NullValueError: string := "TypeError: Cannot read properties of null (reading 'value')"

  /**
    The change handler exactly as written: a single value is wrapped in a list
    before the `|| []` guard, so a cleared single-select hands `[null]` on.
    The null is dereferenced only inside the lookup's predicate, which runs
    only when some hub is available to compare against.
   */
  function OnChangeAsWritten(sel: Selection, suggestedHubs: seq<HubSuggestion>, selectedHubs: seq<Hub>): (r: Result<seq<Hub>>)
    ensures r.Err? <==> sel == SingleValue(None) && |suggestedHubs| + |selectedHubs| > 0
  {
    var available := AvailableHubs(suggestedHubs, selectedHubs);
    if available == [] then Ok([])
    else
      match sel
      case MultiValue(None) => Ok([])
      case MultiValue(Some(values)) => Ok(ResolveHubs(values, available))
      case SingleValue(Some(v)) => Ok(ResolveHubs([v], available))
      case SingleValue(None) => Err(NullValueError)
  }

  lemma ClearedSingleSelectThrows(suggestedHubs: seq<HubSuggestion>, selectedHubs: seq<Hub>)
    requires |suggestedHubs| + |selectedHubs| > 0
    ensures OnChangeAsWritten(SingleValue(None), suggestedHubs, selectedHubs) == Err(NullValueError)
  {
  }

  /**
    The hubs passed to the `onChange` prop, with a cleared selection of either
    kind giving the empty list, as the `|| []` guard intends.
   */
  function OnChange(sel: Selection, suggestedHubs: seq<HubSuggestion>, selectedHubs: seq<Hub>): (r: seq<Hub>)
    ensures sel == MultiValue(None) || sel == SingleValue(None) ==> r == []
    ensures sel.MultiValue? && sel.values.Some? ==> |r| <= |sel.values.value|
    ensures sel.SingleValue? ==> |r| <= 1
  {
    var available := AvailableHubs(suggestedHubs, selectedHubs);
    match sel
    case MultiValue(None) => []
    case MultiValue(Some(values)) => ResolveHubs(values, available)
    case SingleValue(Some(v)) => ResolveHubs([v], available)
    case SingleValue(None) => []
  }

  /** The corrected handler differs from the written one only where that one throws. */
  lemma OnChangeAgreesWhereDefined(sel: Selection, suggestedHubs: seq<HubSuggestion>, selectedHubs: seq<Hub>)
    ensures OnChangeAsWritten(sel, suggestedHubs, selectedHubs).Ok? ==>
              OnChangeAsWritten(sel, suggestedHubs, selectedHubs).value == OnChange(sel, suggestedHubs, selectedHubs)
    ensures OnChange(SingleValue(None), suggestedHubs, selectedHubs) == []
  {
    var available := AvailableHubs(suggestedHubs, selectedHubs);
    if available == [] {
      var values := match sel
        case MultiValue(Some(vs)) => vs
        case SingleValue(Some(v)) => [v]
        case _ => [];
      NothingToResolve(values);
    }
  }

  /** With no hubs available, no option resolves. */
  lemma NothingToResolve(values: seq<SelectOption>)
    ensures ResolveHubs(values, []) == []
  {
    var r := ResolveHubs(values, []);
    if r != [] {
      ResolvedHubsAreFirstMatches(values, [], r[0]);
    }
  }

  /** A single chosen option resolves to its first matching hub, or to nothing. */
  lemma SingleValueResolution(v: SelectOption, suggestedHubs: seq<HubSuggestion>, selectedHubs: seq<Hub>)
    ensures var available := AvailableHubs(suggestedHubs, selectedHubs);
      OnChange(SingleValue(Some(v)), suggestedHubs, selectedHubs)
        == match LookupHub(available, v) case Some(h) => [h] case None => []
  {
    ResolveOne(v, AvailableHubs(suggestedHubs, selectedHubs));
  }

  /** The suggestion list kept by the picker, refreshed from the search endpoint. */
  class HubSelectDropdown {
    const selectedHubs: seq<Hub>
    var suggestedHubs: seq<HubSuggestion>

    constructor (selectedHubs: seq<Hub>)
      ensures this.selectedHubs == selectedHubs && suggestedHubs == []
    {
      this.selectedHubs := selectedHubs;
      suggestedHubs := [];
    }

    /**
      `handleHubInputChange(value)`: a query of at least three characters
      replaces the suggestions with what the endpoint returned (`fetched`);
      a shorter one leaves them alone.
     */
    method HandleHubInputChange(value: string, fetched: seq<HubSuggestion>)
      modifies this
      ensures |value| >= MinQueryLength ==> suggestedHubs == fetched
      ensures |value| < MinQueryLength ==> suggestedHubs == old(suggestedHubs)
    {
      if |value| >= MinQueryLength {
        suggestedHubs := fetched;
      }
    }

    /** The picker's change handler over its current suggestions. */
    function ChangedHubs(sel: Selection): (r: seq<Hub>)
      reads this
      ensures forall h :: h in r ==> h in AvailableHubs(suggestedHubs, selectedHubs)
    {
      var r := OnChange(sel, suggestedHubs, selectedHubs);
      assert forall h :: h in r ==> h in AvailableHubs(suggestedHubs, selectedHubs) by {
        forall h | h in r ensures h in AvailableHubs(suggestedHubs, selectedHubs) {
          var available := AvailableHubs(suggestedHubs, selectedHubs);
          var values := match sel
            case MultiValue(Some(vs)) => vs
            case SingleValue(Some(v)) => [v]
            case _ => [];
          assert r == ResolveHubs(values, available);
          ResolvedHubsAreFirstMatches(values, available, h);
        }
      }
      r
    }
  }
}
