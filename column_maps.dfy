/** The semantic column map shared by image and spectral tables: an
    enumeration of mnemonics, each resolved to a column name (or to none),
    collected into a name map, and searched backwards from a column name. */
module ColumnMaps {

  import opened Wrappers

  /** The map `for m in members: map[name(m)] = colname(m)` builds, starting
      from `{}`. */
  function NameMap<M>(members: seq<M>, name: M -> string, colname: M -> Option<string>): map<string, Option<string>>
  {
    if members == [] then map[]
    else
      var last := members[|members| - 1];
      NameMap(members[..|members| - 1], name, colname)[name(last) := colname(last)]
  }

  /** Inserting one more member: the running map of the loop above. */
  lemma NameMapStep<M>(members: seq<M>, name: M -> string, colname: M -> Option<string>, i: nat)
    requires i < |members|
    ensures NameMap(members[..i + 1], name, colname)
         == NameMap(members[..i], name, colname)[name(members[i]) := colname(members[i])]
  {
    assert members[..i + 1][..i] == members[..i];
  }

  /** No two positions of `members` carry the same name. */
  ghost predicate DistinctNames<M>(members: seq<M>, name: M -> string) {
    forall i, j :: 0 <= i < j < |members| ==> name(members[i]) != name(members[j])
  }

  /** The keys of the name map are exactly the members' names. */
  lemma {:induction false} NameMapKeys<M>(members: seq<M>, name: M -> string, colname: M -> Option<string>, s: string)
    ensures s in NameMap(members, name, colname) <==> exists i :: 0 <= i < |members| && name(members[i]) == s
  {
    if members != [] {
      var prefix := members[..|members| - 1];
      NameMapKeys(prefix, name, colname, s);
      if exists i :: 0 <= i < |members| && name(members[i]) == s {
        var i :| 0 <= i < |members| && name(members[i]) == s;
        if i < |prefix| {
          assert name(prefix[i]) == s;
        }
      }
    }
  }

  /** With distinct names, the map holds one entry per member, and the entry
      under a member's name is that member's column name. */
  lemma {:induction false} NameMapAt<M>(members: seq<M>, name: M -> string, colname: M -> Option<string>, k: nat)
    requires k < |members| && DistinctNames(members, name)
    ensures name(members[k]) in NameMap(members, name, colname)
    ensures NameMap(members, name, colname)[name(members[k])] == colname(members[k])
  {
    var prefix := members[..|members| - 1];
    if k < |prefix| {
      assert DistinctNames(prefix, name) by {
        forall i, j | 0 <= i < j < |prefix| ensures name(prefix[i]) != name(prefix[j]) {
          assert prefix[i] == members[i] && prefix[j] == members[j];
        }
      }
      assert prefix[k] == members[k];
      NameMapAt(prefix, name, colname, k);
    }
  }

  lemma {:induction false} NameMapSize<M>(members: seq<M>, name: M -> string, colname: M -> Option<string>)
    requires DistinctNames(members, name)
    ensures |NameMap(members, name, colname)| == |members|
  {
    if members != [] {
      var prefix := members[..|members| - 1];
      var last := members[|members| - 1];
      assert DistinctNames(prefix, name) by {
        forall i, j | 0 <= i < j < |prefix| ensures name(prefix[i]) != name(prefix[j]) {
          assert prefix[i] == members[i] && prefix[j] == members[j];
        }
      }
      NameMapSize(prefix, name, colname);
      NameMapKeys(prefix, name, colname, name(last));
      forall i | 0 <= i < |prefix| ensures name(prefix[i]) != name(last) {
        assert prefix[i] == members[i];
      }
    }
  }

  /** The member a loop `for m in members: if p(m): result = m` leaves in
      `result`: the last member satisfying `p`, or none. */
  function Last<M>(members: seq<M>, p: M -> bool): (r: Option<M>)
    ensures r.Some? ==> r.value in members && p(r.value)
    ensures r.None? <==> forall i :: 0 <= i < |members| ==> !p(members[i])
  {
    if members == [] then None
    else if p(members[|members| - 1]) then Some(members[|members| - 1])
    else Last(members[..|members| - 1], p)
  }

  /** The member found by `Last` sits at a position after which no member
      satisfies `p`. */
  lemma {:induction false} LastIsLatest<M>(members: seq<M>, p: M -> bool)
    requires Last(members, p).Some?
    ensures exists i :: 0 <= i < |members| && members[i] == Last(members, p).value
                       && forall j :: i < j < |members| ==> !p(members[j])
  {
    var n := |members|;
    if !p(members[n - 1]) {
      var prefix := members[..n - 1];
      LastIsLatest(prefix, p);
      var i :| 0 <= i < |prefix| && prefix[i] == Last(prefix, p).value
               && forall j :: i < j < |prefix| ==> !p(prefix[j]);
      assert members[i] == prefix[i];
      forall j | i < j < n ensures !p(members[j]) {
        if j < n - 1 {
          assert members[j] == prefix[j];
        }
      }
    } else {
      assert members[n - 1] == Last(members, p).value;
    }
  }

  /** Scanning one more member: the running result of the loop above. */
  lemma LastStep<M>(members: seq<M>, p: M -> bool, i: nat)
    requires i < |members|
    ensures Last(members[..i + 1], p)
         == if p(members[i]) then Some(members[i]) else Last(members[..i], p)
  {
    assert members[..i + 1][..i] == members[..i];
  }
}
