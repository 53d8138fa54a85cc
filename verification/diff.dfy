/** The structural-diff result a run receives and the `added` / `removed` date lists read out of it
    (notify.py, lines 60-72). Computing the diff itself is the diff library's business; its result is
    an input here. */
module Diff {
  import opened Wrappers

  /** One available-date record of the endpoint: a JSON object, normally holding a "date" field. */
  type Record = map<string, string>

  const DateField := "date"

  /** One `values_changed` entry: a value the diff saw replaced by another. */
  datatype Change = Change(oldValue: string, newValue: string)

  /** The diff result. Each of the three groups is absent when the diff found nothing of that kind;
      a present group lists its entries in the order the result dictionary yields them. */
  datatype DiffResult = DiffResult(
    itemsAdded: Option<seq<Record>>,
    itemsRemoved: Option<seq<Record>>,
    valuesChanged: Option<seq<Change>>)

  /** A record lookup that fails; the run is abandoned. */
  datatype RecordError = MissingField(field: string)

  /** The dates a run derived from the diff. */
  datatype Changes = Changes(added: seq<string>, removed: seq<string>)

  /** The entries of an optional group, none when the group is absent. */
  function Entries<T>(group: Option<seq<T>>): (es: seq<T>)
    ensures group.None? ==> es == []
    ensures group.Some? ==> es == group.value
  {
    if group.Some? then group.value else []
  }

  predicate HasDate(r: Record)
  {
    DateField in r
  }

  /** The "date" field of every record, in order; fails as `item["date"]` does on a record without one. */
  function Dates(records: seq<Record>): (r: Result<seq<string>, RecordError>)
    ensures r.Success? <==> AllDated(records)
    ensures r.Success? ==> |r.value| == |records|
    ensures r.Success? ==> forall i :: 0 <= i < |records| ==> r.value[i] == records[i][DateField]
    ensures r.Failure? ==> r.error == MissingField(DateField)
  {
    if records == [] then Success([])
    else if DateField !in records[0] then Failure(MissingField(DateField))
    else
      var rest :- Dates(records[1..]);
      Success([records[0][DateField]] + rest)
  }

  function NewValues(changes: seq<Change>): (vs: seq<string>)
    ensures |vs| == |changes|
    ensures forall i :: 0 <= i < |changes| ==> vs[i] == changes[i].newValue
  {
    seq(|changes|, i requires 0 <= i < |changes| => changes[i].newValue)
  }

  function OldValues(changes: seq<Change>): (vs: seq<string>)
    ensures |vs| == |changes|
    ensures forall i :: 0 <= i < |changes| ==> vs[i] == changes[i].oldValue
  {
    seq(|changes|, i requires 0 <= i < |changes| => changes[i].oldValue)
  }

  predicate AllDated(records: seq<Record>)
  {
    forall i :: 0 <= i < |records| ==> HasDate(records[i])
  }

  /** Every entry of both item groups carries a date, so that the extraction goes through. */
  predicate WellFormed(d: DiffResult)
  {
    AllDated(Entries(d.itemsAdded)) && AllDated(Entries(d.itemsRemoved))
  }

  /** The value a changed entry contributes: its new value to `added`, its old value to `removed`. */
  function Side(c: Change, newSide: bool): string
  {
    if newSide then c.newValue else c.oldValue
  }

  /** `out` lists the date of each record, in order, then one side of each change, in order. */
  ghost predicate DatesThenValues(out: seq<string>, records: seq<Record>, changes: seq<Change>, newSide: bool)
    requires AllDated(records)
  {
    && |out| == |records| + |changes|
    && (forall i :: 0 <= i < |records| ==> out[i] == records[i][DateField])
    && (forall j :: 0 <= j < |changes| ==> out[|records| + j] == Side(changes[j], newSide))
  }

  lemma DatesThenValuesConcat(dates: seq<string>, values: seq<string>, records: seq<Record>,
                              changes: seq<Change>, newSide: bool)
    requires AllDated(records)
    requires |dates| == |records| && forall i :: 0 <= i < |records| ==> dates[i] == records[i][DateField]
    requires |values| == |changes| && forall j :: 0 <= j < |changes| ==> values[j] == Side(changes[j], newSide)
    ensures DatesThenValues(dates + values, records, changes, newSide)
  {
  }

  /** The `added` and `removed` lists of a run: the dates of the added items followed by the new value
      of every changed entry, and the dates of the removed items followed by every old value. Nothing
      is deduplicated. */
  function Extract(d: DiffResult): (r: Result<Changes, RecordError>)
    ensures r.Success? <==> WellFormed(d)
    ensures r.Failure? ==> r.error == MissingField(DateField)
    ensures r.Success? ==> DatesThenValues(r.value.added, Entries(d.itemsAdded), Entries(d.valuesChanged), true)
    ensures r.Success? ==> DatesThenValues(r.value.removed, Entries(d.itemsRemoved), Entries(d.valuesChanged), false)
  {
    var added := Dates(Entries(d.itemsAdded));
    var removed := Dates(Entries(d.itemsRemoved));
    var changes := Entries(d.valuesChanged);
    if added.Failure? then Failure(added.error)
    else if removed.Failure? then Failure(removed.error)
    else
      DatesThenValuesConcat(added.value, NewValues(changes), Entries(d.itemsAdded), changes, true);
      DatesThenValuesConcat(removed.value, OldValues(changes), Entries(d.itemsRemoved), changes, false);
      Success(Changes(added.value + NewValues(changes), removed.value + OldValues(changes)))
  }

  /** An empty diff result (the two snapshots are equal) yields no added and no removed dates. */
  lemma ExtractEmpty()
    ensures Extract(DiffResult(None, None, None)) == Success(Changes([], []))
  {
  }

  /** A value occurs in a list built by DatesThenValues exactly when it is one of the record dates or
      one of the chosen change sides. */
  lemma DatesThenValuesMembership(out: seq<string>, records: seq<Record>, changes: seq<Change>,
                                  newSide: bool, x: string)
    requires AllDated(records)
    requires DatesThenValues(out, records, changes, newSide)
    ensures x in out <==>
      (exists i :: 0 <= i < |records| && records[i][DateField] == x)
      || (exists j :: 0 <= j < |changes| && Side(changes[j], newSide) == x)
  {
    if x in out {
      var k :| 0 <= k < |out| && out[k] == x;
      if k >= |records| {
        assert Side(changes[k - |records|], newSide) == x;
      }
    }
    if exists j :: 0 <= j < |changes| && Side(changes[j], newSide) == x {
      var j :| 0 <= j < |changes| && Side(changes[j], newSide) == x;
      assert out[|records| + j] == x;
    }
    if exists i :: 0 <= i < |records| && records[i][DateField] == x {
      var i :| 0 <= i < |records| && records[i][DateField] == x;
      assert out[i] == x;
    }
  }

  /** A date is reported as added exactly when it is the date of an added item or the new value of a
      changed entry; removed dates likewise, from the removed items and the old values. */
  lemma ExtractMembership(d: DiffResult, x: string)
    requires WellFormed(d)
    ensures x in Extract(d).value.added <==>
      (exists i :: 0 <= i < |Entries(d.itemsAdded)| && Entries(d.itemsAdded)[i][DateField] == x)
      || (exists j :: 0 <= j < |Entries(d.valuesChanged)| && Entries(d.valuesChanged)[j].newValue == x)
    ensures x in Extract(d).value.removed <==>
      (exists i :: 0 <= i < |Entries(d.itemsRemoved)| && Entries(d.itemsRemoved)[i][DateField] == x)
      || (exists j :: 0 <= j < |Entries(d.valuesChanged)| && Entries(d.valuesChanged)[j].oldValue == x)
  {
    var c := Extract(d).value;
    DatesThenValuesMembership(c.added, Entries(d.itemsAdded), Entries(d.valuesChanged), true, x);
    DatesThenValuesMembership(c.removed, Entries(d.itemsRemoved), Entries(d.valuesChanged), false, x);
  }
}
