/** app.py: the bounded table of per-session virtual robots. */
module SessionTable {
  import opened Vda5050

  /** A store is known by the number of the session that created it. */
  datatype Session = Session(id: string, store: nat)

  const MAX_SESSIONS := 256

  function Ids(sessions: seq<Session>): (ids: seq<string>)
    ensures |ids| == |sessions| && forall i | 0 <= i < |ids| :: ids[i] == sessions[i].id
  {
    if sessions == [] then [] else Ids(sessions[..|sessions| - 1]) + [sessions[|sessions| - 1].id]
  }

  function Find(sessions: seq<Session>, id: string): Option<nat> {
    if sessions == [] then None
    else if sessions[0].id == id then Some(sessions[0].store)
    else Find(sessions[1..], id)
  }

  function Others(sessions: seq<Session>, id: string): seq<Session> {
    if sessions == [] then []
    else if sessions[|sessions| - 1].id == id then Others(sessions[..|sessions| - 1], id)
    else Others(sessions[..|sessions| - 1], id) + [sessions[|sessions| - 1]]
  }

  function Newest<T>(s: seq<T>, n: nat): seq<T> { if |s| <= n then s else s[|s| - n..] }

  /** The table and the number of stores created. */
  datatype State = State(sessions: seq<Session>, created: nat)

  const Start := State([], 0)

  function StoreFor(s: State, id: string): nat {
    match Find(s.sessions, id) case Some(store) => store case None => s.created
  }

  /** One request of a session. */
  function Touched(s: State, id: string): State {
    if id == "" then s
    else State(Newest(Others(s.sessions, id) + [Session(id, StoreFor(s, id))], MAX_SESSIONS),
               s.created + if Find(s.sessions, id).None? then 1 else 0)
  }

  function Run(ids: seq<string>): State {
    if ids == [] then Start else Touched(Run(ids[..|ids| - 1]), ids[|ids| - 1])
  }

  // ------------------------------------------------- the most recently used

  function Without(ids: seq<string>, id: string): seq<string> {
    if ids == [] then []
    else if ids[|ids| - 1] == id then Without(ids[..|ids| - 1], id)
    else Without(ids[..|ids| - 1], id) + [ids[|ids| - 1]]
  }

  /** Every id once, in the order of its last use. */
  function ByLastUse(ids: seq<string>): seq<string> {
    if ids == [] then [] else Without(ByLastUse(ids[..|ids| - 1]), ids[|ids| - 1]) + [ids[|ids| - 1]]
  }

  function Members(s: seq<string>): set<string> { set x | x in s }

  predicate Distinct(s: seq<string>) { forall i, j | 0 <= i < j < |s| :: s[i] != s[j] }

  lemma {:induction false} WithoutJoined(a: seq<string>, b: seq<string>, id: string)
    ensures Without(a + b, id) == Without(a, id) + Without(b, id)
    decreases |b|
  {
    if b == [] {
      assert a + b == a;
    } else {
      assert (a + b)[..|a + b| - 1] == a + b[..|b| - 1];
      WithoutJoined(a, b[..|b| - 1], id);
    }
  }

  lemma {:induction false} WithoutMembers(s: seq<string>, id: string)
    requires Distinct(s)
    ensures Distinct(Without(s, id)) && Members(Without(s, id)) == Members(s) - {id}
    decreases |s|
  {
    if s != [] {
      var init, last := s[..|s| - 1], s[|s| - 1];
      WithoutMembers(init, id);
      assert s == init + [last];
      forall x ensures x in Without(init, id) <==> x in init && x != id {
        assert x in Members(Without(init, id)) <==> x in Members(init) - {id};
      }
      assert last !in init;
    }
  }

  lemma {:induction false} WithoutLength(s: seq<string>, id: string)
    requires Distinct(s)
    ensures |Without(s, id)| == |s| - if id in s then 1 else 0
    decreases |s|
  {
    if s != [] {
      var init, last := s[..|s| - 1], s[|s| - 1];
      assert s == init + [last];
      WithoutLength(init, id);
    }
  }

  lemma {:induction false} ByLastUseIsDistinct(ids: seq<string>)
    ensures Distinct(ByLastUse(ids)) && Members(ByLastUse(ids)) == Members(ids)
    decreases |ids|
  {
    if ids != [] {
      var init, last := ids[..|ids| - 1], ids[|ids| - 1];
      ByLastUseIsDistinct(init);
      WithoutMembers(ByLastUse(init), last);
      var rest := Without(ByLastUse(init), last);
      assert last !in Members(rest);
      assert ids == init + [last];
      assert ByLastUse(ids) == rest + [last];
      forall x ensures x in Members(ByLastUse(ids)) <==> x in Members(ids) {
        assert x in Members(rest) <==> x in Members(init) && x != last;
      }
    }
  }

  /** Dropping what is oldest before or after a use comes to the same. */
  lemma NewestAfterUse(s: seq<string>, id: string, n: nat)
    requires Distinct(s) && n > 0
    ensures Newest(Without(Newest(s, n), id) + [id], n) == Newest(Without(s, id) + [id], n)
  {
    if |s| > n {
      var older, newer := s[..|s| - n], s[|s| - n..];
      assert s == older + newer;
      WithoutJoined(older, newer, id);
      WithoutLength(newer, id);
      assert Without(s, id) + [id] == Without(older, id) + (Without(newer, id) + [id]);
      NewestOfJoined(Without(older, id), Without(newer, id) + [id], n);
    }
  }

  lemma NewestOfJoined(a: seq<string>, b: seq<string>, n: nat)
    requires |b| >= n
    ensures Newest(a + b, n) == Newest(b, n)
  {
  }

  lemma {:induction false} OtherIds(sessions: seq<Session>, id: string)
    ensures Ids(Others(sessions, id)) == Without(Ids(sessions), id)
    decreases |sessions|
  {
    if sessions != [] {
      OtherIds(sessions[..|sessions| - 1], id);
      var rest := Others(sessions[..|sessions| - 1], id);
      var last := sessions[|sessions| - 1];
      assert Ids(sessions)[..|sessions| - 1] == Ids(sessions[..|sessions| - 1]);
      assert (rest + [last])[..|rest|] == rest;
    }
  }

  /** The table holds the most recently used ids, oldest first. */
  lemma {:induction false} TableIsNewest(ids: seq<string>)
    requires "" !in ids
    ensures Ids(Run(ids).sessions) == Newest(ByLastUse(ids), MAX_SESSIONS)
    decreases |ids|
  {
    if ids != [] {
      var init, last := ids[..|ids| - 1], ids[|ids| - 1];
      TableIsNewest(init);
      ByLastUseIsDistinct(init);
      NewestAfterUse(ByLastUse(init), last, MAX_SESSIONS);
      var before := Run(init).sessions;
      OtherIds(before, last);
      NewestIds(Others(before, last) + [Session(last, StoreFor(Run(init), last))]);
    }
  }

  lemma NewestIds(sessions: seq<Session>)
    requires sessions != []
    ensures Ids(Newest(sessions, MAX_SESSIONS)) == Newest(Ids(sessions), MAX_SESSIONS)
    ensures Ids(sessions) == Ids(sessions[..|sessions| - 1]) + [sessions[|sessions| - 1].id]
  {
  }

  // ---------------------------------------------------- what that says of ids

  /** The ids used since the `k`th request are the newest ones from some place on. */
  lemma {:induction false} SinceRequest(ids: seq<string>, k: nat) returns (j: nat)
    requires k <= |ids|
    ensures j <= |ByLastUse(ids)| && Members(ids[k..]) == Members(ByLastUse(ids)[j..])
    decreases |ids|
  {
    if k == |ids| {
      j := |ByLastUse(ids)|;
    } else {
      var init, last := ids[..|ids| - 1], ids[|ids| - 1];
      var i := SinceRequest(init, k);
      var r := ByLastUse(init);
      ByLastUseIsDistinct(init);
      j := |Without(r[..i], last)|;
      SplitUse(r, i, last);
      assert ids[k..] == init[k..] + [last];
      assert forall x :: x in Members(ids[k..]) <==> x in Members(init[k..]) || x == last;
    }
  }

  /** The newest ids from place `i` on, after `id` was used. */
  lemma SplitUse(r: seq<string>, i: nat, id: string)
    requires Distinct(r) && i <= |r|
    ensures var j, after := |Without(r[..i], id)|, Without(r, id) + [id];
            j <= |after| && Members(after[j..]) == Members(r[i..]) + {id}
  {
    assert r == r[..i] + r[i..];
    WithoutJoined(r[..i], r[i..], id);
    WithoutMembers(r[i..], id);
    var j, after := |Without(r[..i], id)|, Without(r, id) + [id];
    assert after[j..] == Without(r[i..], id) + [id];
    assert forall x :: x in Members(after[j..]) <==> x in Members(Without(r[i..], id)) || x == id;
  }

  /** Every place in that order is the last use of an id. */
  lemma {:induction false} LastUse(ids: seq<string>, j: nat) returns (k: nat)
    requires j < |ByLastUse(ids)|
    ensures k < |ids| && ids[k] == ByLastUse(ids)[j] && Members(ids[k..]) == Members(ByLastUse(ids)[j..])
    decreases |ids|
  {
    var init, last := ids[..|ids| - 1], ids[|ids| - 1];
    var r := ByLastUse(init);
    if j == |ByLastUse(ids)| - 1 {
      k := |ids| - 1;
      assert ids[k..] == [last] == ByLastUse(ids)[j..];
    } else {
      var i := Origin(r, last, j);
      k := LastUse(init, i);
      ByLastUseIsDistinct(init);
      SplitUse(r, i, last);
      assert ids[k..] == init[k..] + [last];
      assert forall x :: x in Members(ids[k..]) <==> x in Members(init[k..]) || x == last;
    }
  }

  /** Where an element came from. */
  lemma {:induction false} Origin(s: seq<string>, id: string, j: nat) returns (i: nat)
    requires j < |Without(s, id)|
    ensures i < |s| && s[i] == Without(s, id)[j] && |Without(s[..i], id)| == j
    decreases |s|
  {
    var init, last := s[..|s| - 1], s[|s| - 1];
    if j == |Without(init, id)| {
      i := |s| - 1;
    } else {
      i := Origin(init, id, j);
      assert s[..i] == init[..i];
    }
  }

  lemma {:induction false} SizeOfDistinct(s: seq<string>)
    requires Distinct(s)
    ensures |Members(s)| == |s|
    decreases |s|
  {
    if s != [] {
      var init, last := s[..|s| - 1], s[|s| - 1];
      SizeOfDistinct(init);
      assert s == init + [last];
      assert Members(s) == Members(init) + {last} && last !in Members(init);
    }
  }

  lemma NewestIsRecent(ids: seq<string>, j: nat)
    requires |ByLastUse(ids)| - MAX_SESSIONS <= j < |ByLastUse(ids)|
    ensures exists k :: 0 <= k < |ids| && ids[k] == ByLastUse(ids)[j] && |Members(ids[k..])| <= MAX_SESSIONS
  {
    ByLastUseIsDistinct(ids);
    var k := LastUse(ids, j);
    SizeOfDistinct(ByLastUse(ids)[j..]);
  }

  lemma RecentIsNewest(ids: seq<string>, k: nat)
    requires k < |ids| && |Members(ids[k..])| <= MAX_SESSIONS
    ensures ids[k] in Newest(ByLastUse(ids), MAX_SESSIONS)
  {
    ByLastUseIsDistinct(ids);
    var r := ByLastUse(ids);
    var j := SinceRequest(ids, k);
    SizeOfDistinct(r[j..]);
    assert ids[k..][0] == ids[k] && ids[k] in Members(ids[k..]);
    var i :| 0 <= i < |r[j..]| && r[j..][i] == ids[k];
    InNewest(r, j + i, MAX_SESSIONS);
  }

  lemma InNewest(s: seq<string>, i: nat, n: nat)
    requires |s| - n <= i < |s|
    ensures s[i] in Newest(s, n)
  {
    if |s| > n { assert Newest(s, n)[i - (|s| - n)] == s[i]; }
  }

  lemma WhereNewest(s: seq<string>, x: string, n: nat) returns (i: nat)
    requires x in Newest(s, n)
    ensures |s| - n <= i < |s| && s[i] == x
  {
    var j :| 0 <= j < |Newest(s, n)| && Newest(s, n)[j] == x;
    i := if |s| <= n then j else |s| - n + j;
  }

  /** A session is kept exactly as long as no more than 256 ids, itself among them, have been in
      use since one of its requests. */
  lemma KeptExactlyWhileRecent(ids: seq<string>, id: string)
    requires "" !in ids
    ensures id in Ids(Run(ids).sessions)
       <==> exists k :: 0 <= k < |ids| && ids[k] == id && |Members(ids[k..])| <= 256
  {
    TableIsNewest(ids);
    if id in Ids(Run(ids).sessions) {
      var j := WhereNewest(ByLastUse(ids), id, MAX_SESSIONS);
      NewestIsRecent(ids, j);
    }
    if k :| 0 <= k < |ids| && ids[k] == id && |Members(ids[k..])| <= MAX_SESSIONS {
      RecentIsNewest(ids, k);
    }
  }

  // ------------------------------------------------------------ isolation

  predicate AllApart(sessions: seq<Session>) {
    forall i, j | 0 <= i < j < |sessions| ::
      sessions[i].store != sessions[j].store && sessions[i].id != sessions[j].id
  }

  predicate Created(sessions: seq<Session>, created: nat) { forall x | x in sessions :: x.store < created }

  lemma {:induction false} OthersApart(sessions: seq<Session>, id: string)
    requires AllApart(sessions)
    ensures AllApart(Others(sessions, id))
    ensures forall x :: x in Others(sessions, id) <==> x in sessions && x.id != id
    decreases |sessions|
  {
    if sessions != [] {
      OthersApart(sessions[..|sessions| - 1], id);
      assert sessions == sessions[..|sessions| - 1] + [sessions[|sessions| - 1]];
    }
  }

  lemma {:induction false} FoundIsThere(sessions: seq<Session>, id: string)
    ensures Find(sessions, id).Some? ==> Session(id, Find(sessions, id).value) in sessions
  {
    if sessions != [] && sessions[0].id != id { FoundIsThere(sessions[1..], id); }
  }

  lemma ApartExtended(sessions: seq<Session>, x: Session)
    requires AllApart(sessions) && forall y | y in sessions :: y.store != x.store && y.id != x.id
    ensures AllApart(sessions + [x])
  {
  }

  /** Different sessions never share a robot, however many came and went. */
  lemma {:induction false} SessionsAreIsolated(ids: seq<string>)
    ensures AllApart(Run(ids).sessions) && Created(Run(ids).sessions, Run(ids).created)
    decreases |ids|
  {
    if ids != [] {
      var s, id := Run(ids[..|ids| - 1]), ids[|ids| - 1];
      SessionsAreIsolated(ids[..|ids| - 1]);
      OthersApart(s.sessions, id);
      FoundIsThere(s.sessions, id);
      var store := StoreFor(s, id);
      forall y | y in Others(s.sessions, id) ensures y.store != store {
        if y.store == store { OneOfStore(s.sessions, y, Session(id, store)); }
      }
      ApartExtended(Others(s.sessions, id), Session(id, store));
    }
  }

  lemma OneOfStore(sessions: seq<Session>, x: Session, y: Session)
    requires AllApart(sessions) && x in sessions && y in sessions && x.store == y.store
    ensures x == y
  {
  }

  /** The request right after finds the robot it was given. */
  lemma RobotIsKept(s: State, id: string)
    requires id != ""
    ensures StoreFor(Touched(s, id), id) == StoreFor(s, id)
  {
    var others := Others(s.sessions, id);
    var all := others + [Session(id, StoreFor(s, id))];
    NoneFound(s.sessions, id);
    var kept := Newest(all, MAX_SESSIONS);
    assert kept == kept[..|kept| - 1] + [Session(id, StoreFor(s, id))];
    assert forall x | x in kept[..|kept| - 1] :: x in others;
    FindLast(kept[..|kept| - 1], id, StoreFor(s, id));
  }

  lemma {:induction false} NoneFound(sessions: seq<Session>, id: string)
    ensures forall x | x in Others(sessions, id) :: x.id != id
    decreases |sessions|
  {
    if sessions != [] { NoneFound(sessions[..|sessions| - 1], id); }
  }

  lemma {:induction false} FindLast(sessions: seq<Session>, id: string, store: nat)
    requires forall x | x in sessions :: x.id != id
    ensures Find(sessions + [Session(id, store)], id) == Some(store)
  {
    if sessions != [] {
      assert sessions[0] in sessions;
      FindLast(sessions[1..], id, store);
      assert (sessions + [Session(id, store)])[1..] == sessions[1..] + [Session(id, store)];
    }
  }

  lemma {:induction false} FoundIsKept(sessions: seq<Session>, id: string)
    requires exists x :: x in sessions && x.id == id
    ensures Find(sessions, id).Some?
  {
    if sessions[0].id != id {
      var x :| x in sessions && x.id == id;
      assert x in sessions[1..];
      FoundIsKept(sessions[1..], id);
    }
  }

  /** Somebody else's request does not change whose robot is whose. */
  lemma OtherRequestKeeps(s: State, other: string, id: string)
    requires AllApart(s.sessions) && other != id && Find(Touched(s, other).sessions, id).Some?
    ensures Find(s.sessions, id) == Find(Touched(s, other).sessions, id)
  {
    if other != "" {
      var store := Find(Touched(s, other).sessions, id).value;
      FoundIsThere(Touched(s, other).sessions, id);
      OthersApart(s.sessions, other);
      var all := Others(s.sessions, other) + [Session(other, StoreFor(s, other))];
      assert Session(id, store) in all && Session(id, store) in s.sessions;
      FoundIsKept(s.sessions, id);
      FoundIsThere(s.sessions, id);
      OneOfId(s.sessions, Session(id, store), Session(id, Find(s.sessions, id).value));
    }
  }

  lemma OneOfId(sessions: seq<Session>, x: Session, y: Session)
    requires AllApart(sessions) && x in sessions && y in sessions && x.id == y.id
    ensures x == y
  {
  }

  /** As long as a session stays in the table, every request of it finds the same robot, whatever comes
      and goes around it. */
  lemma {:induction false} RobotStays(ids: seq<string>, k: nat, id: string)
    requires k <= |ids| && id != ""
    requires forall j | k <= j <= |ids| :: Find(Run(ids[..j]).sessions, id).Some?
    ensures StoreFor(Run(ids), id) == StoreFor(Run(ids[..k]), id)
    decreases |ids|
  {
    assert ids[..|ids|] == ids;
    if k < |ids| {
      var init, last := ids[..|ids| - 1], ids[|ids| - 1];
      forall j | k <= j <= |init| ensures Find(Run(init[..j]).sessions, id).Some? { assert init[..j] == ids[..j]; }
      RobotStays(init, k, id);
      assert init[..k] == ids[..k];
      SessionsAreIsolated(init);
      if last == id { RobotIsKept(Run(init), id); } else { OtherRequestKeeps(Run(init), last, id); }
    }
  }

  // ------------------------------------------------------------- the object

  class Emulator {
    var sessions: seq<Session>
    var created: nat

    constructor ()
      ensures State(sessions, created) == Start
    {
      sessions, created := [], 0;
    }

    /** `state_for`; `None` is the default store. */
    method StateFor(id: string) returns (store: Option<nat>)
      modifies this
      ensures State(sessions, created) == Touched(old(State(sessions, created)), id)
      ensures store == if id == "" then None else Some(StoreFor(old(State(sessions, created)), id))
    {
      if id == "" { return None; }
      ghost var before := State(sessions, created);
      store := Find(sessions, id);
      if store.None? {
        store := Some(created);
        sessions, created := sessions + [Session(id, created)], created + 1;
        assert sessions[..|sessions| - 1] == old(sessions);
      }
      assert Others(sessions, id) == Others(old(sessions), id);
      sessions := Others(sessions, id) + [Session(id, store.value)];
      ghost var all := sessions;
      assert all == Others(before.sessions, id) + [Session(id, StoreFor(before, id))];
      while |sessions| > MAX_SESSIONS
        invariant created == Touched(before, id).created
        invariant |all| - |sessions| >= 0 && sessions == all[|all| - |sessions|..]
        invariant |all| > MAX_SESSIONS ==> |sessions| >= MAX_SESSIONS
        invariant |all| <= MAX_SESSIONS ==> sessions == all
      {
        sessions := sessions[1..];
      }
      assert sessions == Newest(all, MAX_SESSIONS);
    }
  }
}
