/** internal/engine/scoring/first_blood.go */
module FirstBlood {

  datatype Record = Record(flagID: string, teamID: int, round: int, timestamp: int)

  type Records = map<string, Record>

  /** LoadFromRecords: a later record replaces an earlier one for the same flag. */
  function Loaded(m: Records, rs: seq<Record>): Records {
    if rs == [] then m
    else
      var last := rs[|rs| - 1];
      Loaded(m, rs[..|rs| - 1])[last.flagID := last]
  }

  ghost predicate WellKeyed(m: Records) {
    forall f :: f in m ==> m[f].flagID == f
  }

  class FirstBloodDetector {
    var records: Records

    constructor ()
      ensures records == map[]
    {
      records := map[];
    }

    /** True exactly for the first submission of a flag, which it records. */
    method CheckAndRecord(flagID: string, teamID: int, round: int, now: int) returns (first: bool)
      modifies this
      ensures first <==> flagID !in old(records)
      ensures records == if first then old(records)[flagID := Record(flagID, teamID, round, now)] else old(records)
    {
      if flagID in records {
        return false;
      }
      records := records[flagID := Record(flagID, teamID, round, now)];
      first := true;
    }

    /** All records a team holds, in no particular order. */
    method GetTeamFirstBloods(teamID: int) returns (found: seq<Record>)
      ensures |found| == |set f | f in records && records[f].teamID == teamID|
      ensures forall r :: r in found <==> exists f :: f in records && records[f] == r && r.teamID == teamID
    {
      found := [];
      var todo := records.Keys;
      while todo != {}
        invariant todo <= records.Keys
        invariant |found| == |set f | f in records && f !in todo && records[f].teamID == teamID|
        invariant forall r :: r in found <==>
          exists f :: f in records && f !in todo && records[f] == r && r.teamID == teamID
        decreases todo
      {
        var f :| f in todo;
        ghost var before := set g | g in records && g !in todo && records[g].teamID == teamID;
        if records[f].teamID == teamID {
          found := found + [records[f]];
          assert (set g | g in records && g !in todo - {f} && records[g].teamID == teamID) == before + {f};
        } else {
          assert (set g | g in records && g !in todo - {f} && records[g].teamID == teamID) == before;
        }
        todo := todo - {f};
      }
      assert (set f | f in records && f !in todo && records[f].teamID == teamID)
          == (set f | f in records && records[f].teamID == teamID);
    }

    method Clear()
      modifies this
      ensures records == map[]
    {
      records := map[];
    }

    method LoadFromRecords(rs: seq<Record>)
      modifies this
      ensures records == Loaded(old(records), rs)
    {
      for i := 0 to |rs|
        invariant records == Loaded(old(records), rs[..i])
      {
        assert rs[..i + 1][..i] == rs[..i];
        records := records[rs[i].flagID := rs[i]];
      }
      assert rs[..|rs|] == rs;
    }
  }

  lemma {:induction false} LoadedLookup(rs: seq<Record>, m: Records)
    requires WellKeyed(m) && forall r :: r in rs ==> r.flagID in m && m[r.flagID] == r
    ensures Loaded(map[], rs) == map f | f in m && m[f] in rs :: m[f]
    decreases |rs|
  {
    if rs != [] {
      var init, last := rs[..|rs| - 1], rs[|rs| - 1];
      assert rs == init + [last];
      LoadedLookup(init, m);
    }
  }

  /** Recovery after a restart: clearing the detector and loading back the records it held, in any
      order and with any repetitions, restores it, so every later check answers as it would have. */
  lemma ReloadRestores(m: Records, saved: seq<Record>)
    requires WellKeyed(m)
    requires forall r :: r in saved <==> exists f :: f in m && m[f] == r
    ensures Loaded(map[], saved) == m
  {
    forall r | r in saved ensures r.flagID in m && m[r.flagID] == r {
      var f :| f in m && m[f] == r;
    }
    LoadedLookup(saved, m);
  }
}
