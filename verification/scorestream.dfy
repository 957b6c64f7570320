/** Date-string suffixing and the team lookup table (src/lib/scorestream.ts). */
module ScoreStream {
  import opened Types

  /** `${dateStr} ${end ? "23:59:59" : "00:00:00"}`: a date widened to the start or end of its day. */
  function ToApiDateTime(dateStr: string, end: bool := false): (s: string)
    ensures |s| == |dateStr| + 9
    ensures s[..|dateStr|] == dateStr
    ensures s[|dateStr|..] == if end then " 23:59:59" else " 00:00:00"
  {
    dateStr + " " + (if end then "23:59:59" else "00:00:00")
  }

  /** The suffix can be taken off again: distinct inputs never give the same string. */
  lemma ToApiDateTimeInjective(d1: string, e1: bool, d2: string, e2: bool)
    requires ToApiDateTime(d1, e1) == ToApiDateTime(d2, e2)
    ensures d1 == d2 && e1 == e2
  {
    var s := ToApiDateTime(d1, e1);
    assert |d1| == |d2|;
    assert d1 == s[..|d1|] == d2;
    assert s[|d1| + 1] == (if e1 then '2' else '0') == (if e2 then '2' else '0');
  }

  /** The identifiers occurring in a list of teams. */
  function TeamIds(ts: seq<Team>): set<int> {
    set t | t in ts :: t.teamId
  }

  /** No two teams of the list share an identifier. */
  predicate DistinctIds(ts: seq<Team>) {
    forall i, j :: 0 <= i < j < |ts| ==> ts[i].teamId != ts[j].teamId
  }

  /** The reference fold: teams inserted left to right, a later team replacing an earlier one. */
  function TeamMap(ts: seq<Team>): map<int, Team>
  {
    if ts == [] then map[] else TeamMap(ts[..|ts| - 1])[ts[|ts| - 1].teamId := ts[|ts| - 1]]
  }

  /** `buildTeamMap`: `map.set(t.teamId, t)` for each team in order. */
  method BuildTeamMap(teams: seq<Team>) returns (m: map<int, Team>)
    ensures m == TeamMap(teams)
    ensures m.Keys == TeamIds(teams)
  {
    m := map[];
    for i := 0 to |teams|
      invariant m == TeamMap(teams[..i])
    {
      assert teams[..i + 1][..i] == teams[..i];
      m := m[teams[i].teamId := teams[i]];
    }
    assert teams[..|teams|] == teams;
    TeamMapKeys(teams);
  }

  /** The key set is exactly the set of identifiers in the input. */
  lemma {:induction false} TeamMapKeys(ts: seq<Team>)
    ensures TeamMap(ts).Keys == TeamIds(ts)
  {
    if ts != [] {
      var init, last := ts[..|ts| - 1], ts[|ts| - 1];
      TeamMapKeys(init);
      assert ts == init + [last];
      assert TeamIds(ts) == TeamIds(init) + {last.teamId};
    }
  }

  /** Every stored team sits under its own identifier. */
  lemma {:induction false} TeamMapConsistent(ts: seq<Team>)
    ensures forall k :: k in TeamMap(ts) ==> TeamMap(ts)[k].teamId == k
  {
    if ts != [] {
      TeamMapConsistent(ts[..|ts| - 1]);
    }
  }

  /** Last write wins: the team stored for an identifier is its last occurrence in the list. */
  lemma {:induction false} TeamMapLastWins(ts: seq<Team>, i: nat)
    requires i < |ts|
    requires forall j :: i < j < |ts| ==> ts[j].teamId != ts[i].teamId
    ensures ts[i].teamId in TeamMap(ts) && TeamMap(ts)[ts[i].teamId] == ts[i]
  {
    if i < |ts| - 1 {
      var init := ts[..|ts| - 1];
      assert forall j :: i < j < |init| ==> init[j] == ts[j];
      TeamMapLastWins(init, i);
    }
  }

  /** Appending one team adds exactly its identifier. */
  lemma TeamIdsSnoc(init: seq<Team>, last: Team)
    ensures TeamIds(init + [last]) == TeamIds(init) + {last.teamId}
  {
    var ts := init + [last];
    forall k | k in TeamIds(ts) ensures k in TeamIds(init) + {last.teamId} {
      var t :| t in ts && t.teamId == k;
      if t != last { assert t in init; }
    }
  }

  /** Appending one team keeps the ids distinct exactly when its id is new. */
  lemma DistinctSnoc(init: seq<Team>, last: Team)
    ensures DistinctIds(init + [last]) <==> DistinctIds(init) && last.teamId !in TeamIds(init)
  {
    var ts := init + [last];
    if DistinctIds(ts) {
      assert forall i, j :: 0 <= i < j < |init| ==> init[i] == ts[i] && init[j] == ts[j];
      forall t | t in init ensures t.teamId != last.teamId {
        var k :| 0 <= k < |init| && init[k] == t;
        assert ts[k] == t && ts[|ts| - 1] == last;
      }
    }
  }

  /** The identifiers number at most the teams, exactly as many when they are distinct. */
  lemma {:induction false} TeamIdsCount(ts: seq<Team>)
    ensures |TeamIds(ts)| <= |ts|
    ensures |TeamIds(ts)| == |ts| <==> DistinctIds(ts)
  {
    if ts != [] {
      var init, last := ts[..|ts| - 1], ts[|ts| - 1];
      assert ts == init + [last];
      TeamIdsCount(init);
      TeamIdsSnoc(init, last);
      DistinctSnoc(init, last);
    }
  }

  /** The map never holds more entries than the input has teams, with equality exactly when the ids are distinct. */
  lemma TeamMapSize(ts: seq<Team>)
    ensures |TeamMap(ts)| <= |ts|
    ensures |TeamMap(ts)| == |ts| <==> DistinctIds(ts)
    ensures ts == [] ==> TeamMap(ts) == map[]
  {
    TeamMapKeys(ts);
    TeamIdsCount(ts);
    assert |TeamMap(ts)| == |TeamMap(ts).Keys|;
  }
}
