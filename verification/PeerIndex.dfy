/** The two-level indices of service-proxy.js: timestamps by a first and a second key. */
module PeerIndex {

  /** Timestamps are positive, so testing an entry for truth is testing that it is there. */
  type Time = t: int | t > 0 witness 1

  type Index = map<string, map<string, Time>>

  predicate Has(index: Index, a: string, b: string) {
    a in index && b in index[a]
  }

  function Level(index: Index, a: string): set<string> {
    if a in index then index[a].Keys else {}
  }

  /** Levels are removed when they empty. */
  ghost predicate NoEmptyLevel(index: Index) {
    forall a :: a in index ==> index[a] != map[]
  }

  /** `addIndexEntry`. */
  function Add(index: Index, a: string, b: string, v: Time): (r: Index)
    ensures forall x, y :: Has(r, x, y) <==> Has(index, x, y) || (x == a && y == b)
    ensures forall x :: Level(r, x) == Level(index, x) + if x == a then {b} else {}
  {
    index[a := (if a in index then index[a] else map[])[b := v]]
  }

  /** `deleteIndexEntry`: a level that becomes empty goes too. */
  function Delete(index: Index, a: string, b: string): (r: Index)
    ensures forall x, y :: Has(r, x, y) <==> Has(index, x, y) && !(x == a && y == b)
    ensures forall x :: Level(r, x) == Level(index, x) - if x == a then {b} else {}
  {
    if !Has(index, a, b) then index
    else
      var level := index[a] - {b};
      assert level.Keys == index[a].Keys - {b};
      assert forall y :: y in index[a] ==> y in level.Keys || y == b;
      if level.Keys == {} then index - {a} else index[a := level]
  }

  /** Deletes an entry and leaves its level, even when that becomes empty. */
  function Drop(index: Index, a: string, b: string): (r: Index)
    ensures forall x, y :: Has(r, x, y) <==> Has(index, x, y) && !(x == a && y == b)
    ensures forall x :: Level(r, x) == Level(index, x) - if x == a then {b} else {}
  {
    if a in index then index[a := index[a] - {b}] else index
  }

  /** The entry gets its value, and the others keep theirs. */
  lemma AddStores(index: Index, a: string, b: string, v: Time)
    ensures var r := Add(index, a, b, v);
      && Has(r, a, b) && r[a][b] == v
      && forall x, y | Has(index, x, y) && !(x == a && y == b) :: Has(r, x, y) && r[x][y] == index[x][y]
  {}

  lemma AddKeepsLevels(index: Index, a: string, b: string, v: Time)
    requires NoEmptyLevel(index)
    ensures NoEmptyLevel(Add(index, a, b, v))
  {
    var r := Add(index, a, b, v);
    assert b in r[a];
  }

  lemma DeleteKeepsLevels(index: Index, a: string, b: string)
    requires NoEmptyLevel(index)
    ensures NoEmptyLevel(Delete(index, a, b))
  {}

  /** Where no level is empty, a key is there exactly when it has an entry. */
  lemma KeyHasEntry(index: Index, a: string)
    requires NoEmptyLevel(index)
    ensures a in index <==> exists b :: Has(index, a, b)
  {
    if a in index {
      var b :| b in index[a];
      assert Has(index, a, b);
    }
  }
}
