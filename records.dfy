/** Schema-free records as both data processors handle them: a dictionary
    from field name to a hashable value, and the linear equality scan that
    `search_records` performs in data_processor.py. */
module Records {

  /** The hashable field values the model covers. */
  datatype Value = Int(i: int) | Str(s: string) | Bool(b: bool) | Null

  type Record = map<string, Value>

  /** `key in record and record[key] == value`. */
  predicate HasValue(r: Record, key: string, v: Value) {
    key in r && r[key] == v
  }

  /** The records of `rs` that hold `key` with value `v`, in input order. */
  function Matching(rs: seq<Record>, key: string, v: Value): (r: seq<Record>)
    ensures |r| <= |rs|
    ensures forall k :: 0 <= k < |r| ==> HasValue(r[k], key, v)
  {
    if rs == [] then []
    else
      var p := Matching(rs[..|rs| - 1], key, v);
      if HasValue(rs[|rs| - 1], key, v) then p + [rs[|rs| - 1]] else p
  }

  lemma MatchingSnoc(rs: seq<Record>, r: Record, key: string, v: Value)
    ensures Matching(rs + [r], key, v)
         == if HasValue(r, key, v) then Matching(rs, key, v) + [r] else Matching(rs, key, v)
  {
    assert (rs + [r])[..|rs|] == rs;
  }

  /** The scan keeps every matching record as often as it occurs and drops
      every other record. */
  lemma {:induction false} MatchingMultiplicity(rs: seq<Record>, key: string, v: Value, r: Record)
    ensures multiset(Matching(rs, key, v))[r] == if HasValue(r, key, v) then multiset(rs)[r] else 0
  {
    if rs != [] {
      var p := rs[..|rs| - 1];
      MatchingMultiplicity(p, key, v, r);
      assert rs == p + [rs[|rs| - 1]];
    }
  }
}
