/**
 * A reading is the Python dict that read_values fills: field names such as
 * "temperature" or "P2" mapped to already formatted values, kept in insertion
 * order. It is modelled as a sequence of (key, value) pairs; a dict never holds
 * a key twice, which DistinctKeys states.
 */
module Readings {
  import opened Outcomes

  type Field = (string, string)
  type Reading = seq<Field>

  /** The keys of a reading, in insertion order. */
  function Keys(r: Reading): (ks: seq<string>)
    ensures |ks| == |r|
    ensures forall i :: 0 <= i < |r| ==> ks[i] == r[i].0
  {
    if r == [] then [] else [r[0].0] + Keys(r[1..])
  }

  predicate DistinctKeys(r: Reading)
  {
    forall i, j :: 0 <= i < j < |r| ==> r[i].0 != r[j].0
  }

  /** values[key] in Python, with None for a missing key. */
  function Lookup(r: Reading, key: string): (v: Option<string>)
    ensures v.Some? <==> key in Keys(r)
  {
    if r == [] then None
    else if r[0].0 == key then Some(r[0].1)
    else Lookup(r[1..], key)
  }

  /**
   * values[key] = value in Python: an existing key keeps its place and gets the
   * new value, a new key goes to the end.
   */
  function Put(r: Reading, key: string, value: string): (r': Reading)
    ensures key !in Keys(r) ==> r' == r + [(key, value)]
  {
    if r == [] then [(key, value)]
    else if r[0].0 == key then [(key, value)] + r[1..]
    else
      var rest := Put(r[1..], key, value);
      assert key !in Keys(r) ==> r + [(key, value)] == [r[0]] + (r[1..] + [(key, value)]);
      [r[0]] + rest
  }

  /** After values[key] = value, values[key] is value and every other key reads as before. */
  lemma {:induction false} PutLookup(r: Reading, key: string, value: string, other: string)
    ensures Lookup(Put(r, key, value), key) == Some(value)
    ensures other != key ==> Lookup(Put(r, key, value), other) == Lookup(r, other)
  {
    if r != [] && r[0].0 != key {
      PutLookup(r[1..], key, value, other);
    }
  }

  /** Reassigning a key keeps the key order; a new key goes last. */
  lemma {:induction false} PutKeys(r: Reading, key: string, value: string)
    ensures Keys(Put(r, key, value)) == if key in Keys(r) then Keys(r) else Keys(r) + [key]
  {
    if r != [] && r[0].0 != key {
      PutKeys(r[1..], key, value);
      assert Keys(r) == [r[0].0] + Keys(r[1..]);
    }
  }

  /** Assigning to a key never creates a second copy of it. */
  lemma PutKeepsDistinctKeys(r: Reading, key: string, value: string)
    requires DistinctKeys(r)
    ensures DistinctKeys(Put(r, key, value))
  {
    PutKeys(r, key, value);
    var r' := Put(r, key, value);
    forall i, j | 0 <= i < j < |r'| ensures r'[i].0 != r'[j].0 {
      assert r'[i].0 == Keys(r')[i] && r'[j].0 == Keys(r')[j];
      if j < |r| {
        assert Keys(r)[i] == r[i].0 && Keys(r)[j] == r[j].0;
      } else {
        assert Keys(r)[i] == r[i].0;
      }
    }
  }

  /** key.startswith("P"): the particulate fields are "P1" and "P2". */
  predicate IsParticulate(key: string)
  {
    |key| > 0 && key[0] == 'P'
  }

  /**
   * dict(i for i in values.items() if i[0].startswith("P")) when particulate
   * holds, and the same with "not" otherwise: the fields on one side of the
   * partition, in the reading's order.
   */
  function Select(r: Reading, particulate: bool): (s: Reading)
    ensures |s| <= |r|
    ensures forall i :: 0 <= i < |s| ==> IsParticulate(s[i].0) == particulate
  {
    if r == [] then []
    else if IsParticulate(r[0].0) == particulate then [r[0]] + Select(r[1..], particulate)
    else Select(r[1..], particulate)
  }

  /** A field is on the particulate side iff it is in the reading and its key starts with "P"; likewise for the climate side. */
  lemma {:induction false} SelectMembers(r: Reading, particulate: bool)
    ensures forall f :: f in Select(r, particulate) <==> f in r && IsParticulate(f.0) == particulate
  {
    if r != [] {
      SelectMembers(r[1..], particulate);
      assert r == [r[0]] + r[1..];
    }
  }

  function ParticulateFields(r: Reading): Reading { Select(r, true) }

  function ClimateFields(r: Reading): Reading { Select(r, false) }

  /**
   * r is an interleaving of p and c: r can be dealt out, front to back, into p
   * and c without reordering either.
   */
  predicate Interleaves(r: Reading, p: Reading, c: Reading)
    decreases |r|
  {
    if r == [] then p == [] && c == []
    else
      || (p != [] && r[0] == p[0] && Interleaves(r[1..], p[1..], c))
      || (c != [] && r[0] == c[0] && Interleaves(r[1..], p, c[1..]))
  }

  /**
   * The two sub-dicts split the reading key by key: a key is in the
   * particulate one iff it starts with "P", in the climate one iff it does
   * not, and either way with the reading's value. So the two are disjoint and
   * together give back the reading.
   */
  lemma {:induction false} PartitionByKey(r: Reading, key: string)
    ensures Lookup(ParticulateFields(r), key) == if IsParticulate(key) then Lookup(r, key) else None
    ensures Lookup(ClimateFields(r), key) == if IsParticulate(key) then None else Lookup(r, key)
  {
    if r != [] {
      PartitionByKey(r[1..], key);
    }
  }

  /** Both sub-dicts keep the reading's insertion order, and nothing is lost or duplicated. */
  lemma {:induction false} PartitionKeepsOrder(r: Reading)
    ensures Interleaves(r, ParticulateFields(r), ClimateFields(r))
    ensures multiset(ParticulateFields(r)) + multiset(ClimateFields(r)) == multiset(r)
  {
    if r != [] {
      PartitionKeepsOrder(r[1..]);
      assert r == [r[0]] + r[1..];
      var p, c := ParticulateFields(r[1..]), ClimateFields(r[1..]);
      if IsParticulate(r[0].0) {
        assert ParticulateFields(r) == [r[0]] + p && ClimateFields(r) == c;
        assert ([r[0]] + p)[1..] == p;
      } else {
        assert ParticulateFields(r) == p && ClimateFields(r) == [r[0]] + c;
        assert ([r[0]] + c)[1..] == c;
      }
    }
  }

  /** A sub-dict of a dict is again a dict. */
  lemma {:induction false} SelectKeepsDistinctKeys(r: Reading, particulate: bool)
    requires DistinctKeys(r)
    ensures DistinctKeys(Select(r, particulate))
  {
    if r != [] {
      SelectKeepsDistinctKeys(r[1..], particulate);
      SelectMembers(r[1..], particulate);
      var s := Select(r[1..], particulate);
      forall f | f in s ensures f.0 != r[0].0 {
        var j :| 0 <= j < |r[1..]| && r[1..][j] == f;
        assert r[j + 1] == f;
      }
    }
  }

  /** One {"value_type": key, "value": val} record of the upload body. */
  datatype Record = Record(valueType: string, value: string)

  /** [{"value_type": key, "value": val} for key, val in fields.items()] */
  function Payload(r: Reading): (p: seq<Record>)
    ensures |p| == |r|
    ensures forall i :: 0 <= i < |r| ==> p[i].valueType == r[i].0 && p[i].value == r[i].1
  {
    if r == [] then [] else [Record(r[0].0, r[0].1)] + Payload(r[1..])
  }

  /** The fields a payload carries; the inverse of Payload. */
  function FieldsOf(p: seq<Record>): (r: Reading)
    ensures |r| == |p|
  {
    if p == [] then [] else [(p[0].valueType, p[0].value)] + FieldsOf(p[1..])
  }

  /** A payload loses nothing: the fields can be read back from it, in order. */
  lemma {:induction false} PayloadRoundTrip(r: Reading)
    ensures FieldsOf(Payload(r)) == r
  {
    if r != [] {
      PayloadRoundTrip(r[1..]);
    }
  }

  /**
   * Every record of the particulate payload names a "P" key, every record of
   * the climate payload a key that is not, and each carries the value the
   * reading holds for its key.
   */
  lemma PayloadRecordsMatchReading(r: Reading)
    requires DistinctKeys(r)
    ensures forall rec :: rec in Payload(ParticulateFields(r)) ==>
      IsParticulate(rec.valueType) && Lookup(r, rec.valueType) == Some(rec.value)
    ensures forall rec :: rec in Payload(ClimateFields(r)) ==>
      !IsParticulate(rec.valueType) && Lookup(r, rec.valueType) == Some(rec.value)
  {
    SelectMembers(r, true);
    SelectMembers(r, false);
    forall rec | rec in Payload(ParticulateFields(r))
      ensures IsParticulate(rec.valueType) && Lookup(r, rec.valueType) == Some(rec.value)
    {
      var p := ParticulateFields(r);
      var i :| 0 <= i < |p| && Payload(p)[i] == rec;
      assert p[i] in p;
      LookupInDict(r, p[i]);
    }
    forall rec | rec in Payload(ClimateFields(r))
      ensures !IsParticulate(rec.valueType) && Lookup(r, rec.valueType) == Some(rec.value)
    {
      var c := ClimateFields(r);
      var i :| 0 <= i < |c| && Payload(c)[i] == rec;
      assert c[i] in c;
      LookupInDict(r, c[i]);
    }
  }

  /** In a dict, the value stored with a key is the one looked up for it. */
  lemma {:induction false} LookupInDict(r: Reading, f: Field)
    requires DistinctKeys(r) && f in r
    ensures Lookup(r, f.0) == Some(f.1)
  {
    if r[0] != f {
      assert f in r[1..];
      var j :| 0 <= j < |r[1..]| && r[1..][j] == f;
      assert r[j + 1] == f;
      LookupInDict(r[1..], f);
    }
  }

  lemma SelectCons(f: Field, r: Reading, particulate: bool)
    ensures Select([f] + r, particulate) == (if IsParticulate(f.0) == particulate then [f] else []) + Select(r, particulate)
  {
    assert ([f] + r)[1..] == r;
  }

  /** A full reading splits into the three climate records and the two particulate records, each in reading order. */
  lemma ExamplePartition()
    ensures var r := [("temperature", "21.50"), ("pressure", "1013.20"), ("humidity", "45.00"), ("P1", "10"), ("P2", "5")];
      && Payload(ClimateFields(r)) == [Record("temperature", "21.50"), Record("pressure", "1013.20"), Record("humidity", "45.00")]
      && Payload(ParticulateFields(r)) == [Record("P1", "10"), Record("P2", "5")]
  {
    var t, p, h, p1, p2 := ("temperature", "21.50"), ("pressure", "1013.20"), ("humidity", "45.00"), ("P1", "10"), ("P2", "5");
    var r := [t, p, h, p1, p2];
    assert IsParticulate("P1") && IsParticulate("P2");
    assert !IsParticulate("temperature") && !IsParticulate("pressure") && !IsParticulate("humidity");
    assert r == [t] + ([p] + ([h] + ([p1] + ([p2] + []))));
    SelectCons(p2, [], true);
    SelectCons(p1, [p2], true);
    SelectCons(h, [p1, p2], true);
    SelectCons(p, [h, p1, p2], true);
    SelectCons(t, [p, h, p1, p2], true);
    SelectCons(p2, [], false);
    SelectCons(p1, [p2], false);
    SelectCons(h, [p1, p2], false);
    SelectCons(p, [h, p1, p2], false);
    SelectCons(t, [p, h, p1, p2], false);
  }
}
