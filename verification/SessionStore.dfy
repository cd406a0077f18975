/** Sessions in a database (metaharness/agentdb/turso/store.go): a row per session and a row per
    message, saved by appending only. The plain reference is the in-memory store, which replaces
    the whole record (metaharness/testutils/store.go). */
module SessionStore {
  import opened Wrappers

  datatype Usage = Usage(input: nat, output: nat, total: nat, reasoning: nat, cacheCreation: nat, cacheRead: nat)

  /** What a session's row holds besides its times. */
  datatype Meta = Meta(model: string, status: string, sandbox: string, usage: Usage)

  datatype Record<M> = Record(id: string, meta: Meta, messages: seq<M>)

  datatype SessionRow = SessionRow(meta: Meta, created: int, updated: int)

  /** The two tables. (id, seq) is the primary key of the messages. */
  datatype Db<M> = Db(sessions: map<string, SessionRow>, rows: map<(string, nat), M>)

  // ---------------------------------------------------------------- counting rows

  function Seqs<M>(rows: map<(string, nat), M>, id: string): set<nat> {
    set k | k in rows && k.0 == id :: k.1
  }

  function Count<M>(rows: map<(string, nat), M>, id: string): nat {
    |Seqs(rows, id)|
  }

  /** The sequence numbers of id are 0 up to its count. */
  ghost predicate Dense<M>(rows: map<(string, nat), M>, id: string) {
    forall i: nat :: (id, i) in rows <==> i < Count(rows, id)
  }

  ghost predicate Valid<M>(db: Db<M>) {
    && (forall id :: Dense(db.rows, id))
    && (forall k :: k in db.rows ==> k.0 in db.sessions)
  }

  lemma {:induction false} RangeSize(s: set<nat>, n: nat)
    requires forall i: nat :: i in s <==> i < n
    ensures |s| == n
  {
    if n == 0 {
      assert s == {};
    } else {
      RangeSize(s - {n - 1}, n - 1);
    }
  }

  lemma CountIs<M>(rows: map<(string, nat), M>, id: string, n: nat)
    requires forall i: nat :: (id, i) in rows <==> i < n
    ensures Count(rows, id) == n && Dense(rows, id)
  {
    forall i: nat
      ensures i in Seqs(rows, id) <==> i < n
    {
      if i in Seqs(rows, id) {
        var k :| k in rows && k.0 == id && k.1 == i;
        assert k == (id, i);
      } else {
        assert (id, i) !in rows;
      }
    }
    RangeSize(Seqs(rows, id), n);
  }

  lemma CountSame<M>(before: map<(string, nat), M>, after: map<(string, nat), M>, id: string)
    requires forall i: nat :: (id, i) in before <==> (id, i) in after
    requires Dense(before, id)
    ensures Count(after, id) == Count(before, id) && Dense(after, id)
  {
    CountIs(after, id, Count(before, id));
  }

  // ---------------------------------------------------------------- reading a session back

  ghost function Transcript<M>(db: Db<M>, id: string): (t: seq<M>)
    requires Valid(db)
    ensures |t| == Count(db.rows, id) && forall i :: 0 <= i < |t| ==> (id, i) in db.rows && t[i] == db.rows[(id, i)]
  {
    assert Dense(db.rows, id);
    seq(Count(db.rows, id), i requires 0 <= i < Count(db.rows, id) && (id, i) in db.rows => db.rows[(id, i)])
  }

  ghost function Loaded<M>(db: Db<M>, id: string): Option<Record<M>>
    requires Valid(db)
  {
    if id in db.sessions then Some(Record(id, db.sessions[id].meta, Transcript(db, id))) else None
  }

  // ---------------------------------------------------------------- one save

  function Upserted(sessions: map<string, SessionRow>, id: string, meta: Meta, now: int): map<string, SessionRow> {
    sessions[id := SessionRow(meta, if id in sessions then sessions[id].created else now, now)]
  }

  /** The rows with messages lo up to hi of a session added. */
  function Inserted<M>(rows: map<(string, nat), M>, id: string, messages: seq<M>, lo: nat, hi: nat): (r: map<(string, nat), M>)
    requires lo <= hi && (lo < hi ==> hi <= |messages|)
    ensures forall k :: k in r <==> k in rows || (k.0 == id && lo <= k.1 < hi)
    ensures forall k: (string, nat) :: k in r ==> r[k] == (if k.0 == id && lo <= k.1 < hi then messages[k.1] else rows[k])
    decreases hi
  {
    if lo == hi then rows else Inserted(rows, id, messages, lo, hi - 1)[(id, hi - 1) := messages[hi - 1]]
  }

  /** The database a save that counted stored messages leaves when it commits. */
  function Appended<M>(db: Db<M>, rec: Record<M>, stored: nat, now: int): Db<M> {
    Db(Upserted(db.sessions, rec.id, rec.meta, now),
       if stored < |rec.messages| then Inserted(db.rows, rec.id, rec.messages, stored, |rec.messages|) else db.rows)
  }

  /** Whether a save meets no row of its own number: its count is not stale, or it adds nothing. */
  ghost predicate Commits<M>(db: Db<M>, rec: Record<M>, stored: nat) {
    stored == Count(db.rows, rec.id) || |rec.messages| <= stored
  }

  lemma AppendedCount<M>(db: Db<M>, rec: Record<M>, stored: nat, now: int, id: string)
    requires Valid(db) && Commits(db, rec, stored)
    ensures var rows := Appended(db, rec, stored, now).rows;
            Dense(rows, id) && Count(rows, id)
            == if id == rec.id && stored < |rec.messages| then |rec.messages| else Count(db.rows, id)
  {
    assert Dense(db.rows, id);
    if id == rec.id && stored < |rec.messages| {
      CountIs(Appended(db, rec, stored, now).rows, id, |rec.messages|);
    } else {
      CountSame(db.rows, Appended(db, rec, stored, now).rows, id);
    }
  }

  lemma AppendedValid<M>(db: Db<M>, rec: Record<M>, stored: nat, now: int)
    requires Valid(db) && Commits(db, rec, stored)
    ensures Valid(Appended(db, rec, stored, now))
  {
    forall id
      ensures Dense(Appended(db, rec, stored, now).rows, id)
    {
      AppendedCount(db, rec, stored, now, id);
    }
  }

  /** A save that commits adds what it had beyond its count to the transcript. */
  lemma AppendedTranscript<M>(db: Db<M>, rec: Record<M>, stored: nat, now: int)
    requires Valid(db) && Commits(db, rec, stored) && Valid(Appended(db, rec, stored, now))
    ensures Transcript(Appended(db, rec, stored, now), rec.id)
            == Transcript(db, rec.id) + if stored < |rec.messages| then rec.messages[stored..] else []
  {
    AppendedCount(db, rec, stored, now, rec.id);
    var t, u := Transcript(db, rec.id), Transcript(Appended(db, rec, stored, now), rec.id);
    var more := if stored < |rec.messages| then rec.messages[stored..] else [];
    forall i | 0 <= i < |u|
      ensures u[i] == (t + more)[i]
    {
      assert u[i] == Appended(db, rec, stored, now).rows[(rec.id, i)];
    }
  }

  /** It leaves every other session as it was. */
  lemma AppendedOthers<M>(db: Db<M>, rec: Record<M>, stored: nat, now: int, id: string)
    requires Valid(db) && Commits(db, rec, stored) && Valid(Appended(db, rec, stored, now)) && id != rec.id
    ensures Loaded(Appended(db, rec, stored, now), id) == Loaded(db, id)
  {
    AppendedCount(db, rec, stored, now, id);
    assert Transcript(Appended(db, rec, stored, now), id) == Transcript(db, id);
  }

  /** What any number of saves by anyone may have made of a database: rows are only added. */
  ghost predicate Later<M>(before: Db<M>, after: Db<M>) {
    && (forall k :: k in before.rows ==> k in after.rows && after.rows[k] == before.rows[k])
    && (forall id :: id in before.sessions ==> id in after.sessions && after.sessions[id].created == before.sessions[id].created)
  }

  lemma LaterCounts<M>(before: Db<M>, after: Db<M>, id: string)
    requires Valid(before) && Valid(after) && Later(before, after)
    ensures Count(before.rows, id) <= Count(after.rows, id)
    ensures Transcript(before, id) <= Transcript(after, id)
  {
    assert Dense(before.rows, id) && Dense(after.rows, id);
    var n := Count(before.rows, id);
    if n > 0 {
      assert (id, n - 1) in before.rows;
    }
  }

  /** One of the messages lo up to hi has a row already. */
  ghost predicate Clashes<M>(rows: map<(string, nat), M>, rec: Record<M>, lo: nat, hi: nat) {
    exists n :: lo <= n < hi && (rec.id, n) in rows
  }

  lemma NextClash<M>(rows: map<(string, nat), M>, rec: Record<M>, lo: nat, n: nat)
    requires lo <= n < |rec.messages| && !Clashes(rows, rec, lo, n)
    ensures (rec.id, n) in Inserted(rows, rec.id, rec.messages, lo, n) <==> (rec.id, n) in rows
    ensures (rec.id, n) in rows ==> Clashes(rows, rec, lo, |rec.messages|)
    ensures (rec.id, n) !in rows ==> !Clashes(rows, rec, lo, n + 1)
  {
  }

  // ---------------------------------------------------------------- the store

  class Store<M> {
    var db: Db<M>
    /** How many operations on the database failed. */
    ghost var troubles: nat

    constructor ()
      ensures Valid(db) && troubles == 0 && forall id :: Loaded(db, id) == None
    {
      db, troubles := Db(map[], map[]), 0;
      new;
      forall id
        ensures Dense(db.rows, id)
      {
        CountIs(db.rows, id, 0);
      }
    }

    /** A plain INSERT: a row that exists is an error. */
    method InsertMessage(rows: map<(string, nat), M>, id: string, n: nat, message: M) returns (r: Option<map<(string, nat), M>>)
      ensures r.None? <==> (id, n) in rows
      ensures r.Some? ==> r.value == rows[(id, n) := message]
    {
      return if (id, n) in rows then None else Some(rows[(id, n) := message]);
    }

    /** The messages from number stored on, or None at the first that is there already. */
    method InsertMessages(rows: map<(string, nat), M>, rec: Record<M>, stored: nat) returns (r: Option<map<(string, nat), M>>)
      requires stored < |rec.messages|
      ensures r.None? <==> Clashes(rows, rec, stored, |rec.messages|)
      ensures r.Some? ==> r.value == Inserted(rows, rec.id, rec.messages, stored, |rec.messages|)
    {
      var tx := rows;
      for n := stored to |rec.messages|
        invariant tx == Inserted(rows, rec.id, rec.messages, stored, n)
        invariant !Clashes(rows, rec, stored, n)
      {
        NextClash(rows, rec, stored, n);
        var inserted := InsertMessage(tx, rec.id, n, rec.messages[n]);
        if inserted.None? {
          return None;
        }
        tx := inserted.value;
        assert tx == Inserted(rows, rec.id, rec.messages, stored, n + 1);
      }
      return Some(tx);
    }

    /** The transaction of a save that counted stored messages: it commits, or leaves nothing. */
    method Append(rec: Record<M>, stored: nat, now: int) returns (ok: bool)
      requires Valid(db) && stored <= Count(db.rows, rec.id)
      modifies this`db
      ensures Valid(db) && Later(old(db), db)
      ensures ok <==> Commits(old(db), rec, stored)
      ensures ok <==> forall n :: stored <= n < |rec.messages| ==> (rec.id, n) !in old(db).rows
      ensures ok ==> && rec.id in db.sessions && db.sessions[rec.id].meta == rec.meta && db.sessions[rec.id].updated == now
                     && db.sessions[rec.id].created == (if rec.id in old(db).sessions then old(db).sessions[rec.id].created else now)
                     && forall id :: id in old(db).sessions && id != rec.id ==> db.sessions[id] == old(db).sessions[id]
      ensures db == if ok then Appended(old(db), rec, stored, now) else old(db)
    {
      assert Dense(db.rows, rec.id);
      var sessions, r := Upserted(db.sessions, rec.id, rec.meta, now), Some(db.rows);
      if stored < |rec.messages| {
        r := InsertMessages(db.rows, rec, stored);
      }
      ok := r.Some?;
      assert !Commits(db, rec, stored) ==> (rec.id, stored) in db.rows;
      if ok {
        AppendedValid(db, rec, stored, now);
        db := Db(sessions, r.value);
      }
    }

    /** Other writers save, each with what it counted at some time before. */
    method Others()
      requires Valid(db)
      modifies this`db
      ensures Valid(db) && Later(old(db), db)
    {
      var saves: seq<(Record<M>, nat, int)> := *;
      for i := 0 to |saves|
        invariant Valid(db) && Later(old(db), db)
      {
        if saves[i].1 <= Count(db.rows, saves[i].0.id) {
          var _ := Append(saves[i].0, saves[i].1, saves[i].2);
        }
      }
    }

    /** Whether an operation succeeds. */
    method Works() returns (ok: bool)
      modifies this`troubles
      ensures troubles == if ok then old(troubles) else old(troubles) + 1
    {
      ok := *;
      troubles := if ok then troubles else troubles + 1;
    }

    /** Save, while others save too and any operation may fail. It fails only then, or if somebody else
        stored one of its messages' numbers meanwhile. at is the database its transaction
        found, stored what it had counted before. */
    method Save(rec: Record<M>, now: int) returns (ok: bool, ghost stored: nat, ghost at: Db<M>)
      requires Valid(db)
      modifies this
      ensures Valid(db) && Valid(at) && Later(old(db), at) && Later(at, db)
      ensures stored == Count(old(db).rows, rec.id) <= Count(at.rows, rec.id)
      ensures ok ==> Commits(at, rec, stored) && db == Appended(at, rec, stored, now)
      ensures !ok ==> db == at
      ensures ok <==> troubles == old(troubles) && forall n :: stored <= n < |rec.messages| ==> (rec.id, n) !in at.rows
    {
      at, stored := db, Count(db.rows, rec.id);
      var reached := Works();
      if !reached {
        return false, stored, at;
      }
      var counted := Count(db.rows, rec.id);
      Others();
      LaterCounts(at, db, rec.id);
      at := db;
      var began := Works();
      if !began {
        return false, stored, at;
      }
      ok := Append(rec, counted, now);
    }

    /** The session as its rows have it, in the order of their numbers. */
    method Load(id: string) returns (r: Option<Record<M>>)
      requires Valid(db)
      ensures r == Loaded(db, id)
    {
      if id !in db.sessions {
        return None;
      }
      var messages: seq<M> := [];
      var count := Count(db.rows, id);
      assert Dense(db.rows, id);
      while |messages| < count
        invariant messages <= Transcript(db, id)
        decreases count - |messages|
      {
        messages := messages + [db.rows[(id, |messages|)]];
      }
      assert messages == Transcript(db, id);
      return Some(Record(id, db.sessions[id].meta, messages));
    }
  }

  // ---------------------------------------------------------------- against the whole record

  class MemStore<M> {
    var sessions: map<string, Record<M>>

    constructor ()
      ensures sessions == map[]
    {
      sessions := map[];
    }

    method Save(rec: Record<M>)
      modifies this
      ensures sessions == old(sessions)[rec.id := rec]
    {
      sessions := sessions[rec.id := rec];
    }

    method Load(id: string) returns (r: Option<Record<M>>)
      ensures r == if id in sessions then Some(sessions[id]) else None
    {
      return if id in sessions then Some(sessions[id]) else None;
    }
  }

  /** A save by a single writer: its count is never stale. */
  function Saved<M>(db: Db<M>, rec: Record<M>, now: int): Db<M> {
    Appended(db, rec, Count(db.rows, rec.id), now)
  }

  lemma ContinuesIff<M>(t: seq<M>, m: seq<M>)
    ensures t + (if |t| < |m| then m[|t|..] else []) == m <==> t <= m
  {
    if |t| < |m| {
      assert m == m[..|t|] + m[|t|..];
      assert (t + m[|t|..])[..|t|] == t;
    }
  }

  /** A save loads back as saved exactly when it continues what was stored. */
  lemma SaveLoads<M>(db: Db<M>, rec: Record<M>, now: int)
    requires Valid(db)
    ensures Valid(Saved(db, rec, now))
    ensures Loaded(Saved(db, rec, now), rec.id) == Some(rec) <==> Transcript(db, rec.id) <= rec.messages
  {
    var n := Count(db.rows, rec.id);
    AppendedValid(db, rec, n, now);
    AppendedTranscript(db, rec, n, now);
    ContinuesIff(Transcript(db, rec.id), rec.messages);
  }

  ghost predicate Agrees<M>(db: Db<M>, mem: map<string, Record<M>>) {
    && Valid(db)
    && (forall id :: id in mem ==> mem[id].id == id)
    && forall id :: Loaded(db, id) == if id in mem then Some(mem[id]) else None
  }

  /** Both stores agree after every one of the saves. */
  ghost predicate AgreeThroughout<M>(db: Db<M>, mem: map<string, Record<M>>, saves: seq<Record<M>>, now: int)
    decreases |saves|
  {
    Agrees(db, mem) && (saves != [] ==>
      AgreeThroughout(Saved(db, saves[0], now), mem[saves[0].id := saves[0]], saves[1..], now + 1))
  }

  /** Every save continues the transcript last saved for its session. */
  predicate Continuing<M(==)>(mem: map<string, Record<M>>, saves: seq<Record<M>>)
    decreases |saves|
  {
    saves == [] ||
    (&& (saves[0].id in mem ==> mem[saves[0].id].messages <= saves[0].messages)
     && Continuing(mem[saves[0].id := saves[0]], saves[1..]))
  }

  lemma OrphanFree<M>(db: Db<M>, id: string)
    requires Valid(db) && id !in db.sessions
    ensures Transcript(db, id) == []
  {
    assert Dense(db.rows, id);
    assert (id, 0) !in db.rows;
  }

  /** Stores that agree go on agreeing over a save exactly when it continues what was saved. */
  lemma SaveAgrees<M>(db: Db<M>, mem: map<string, Record<M>>, rec: Record<M>, now: int)
    requires Agrees(db, mem)
    ensures Agrees(Saved(db, rec, now), mem[rec.id := rec])
            <==> (rec.id in mem ==> mem[rec.id].messages <= rec.messages)
  {
    SaveLoads(db, rec, now);
    assert Loaded(db, rec.id) == if rec.id in mem then Some(mem[rec.id]) else None;
    if rec.id !in mem {
      OrphanFree(db, rec.id);
    }
    forall id | id != rec.id
      ensures Loaded(Saved(db, rec, now), id) == Loaded(db, id)
    {
      AppendedOthers(db, rec, Count(db.rows, rec.id), now, id);
    }
    assert Loaded(Saved(db, rec, now), rec.id) == Some(rec)
           <==> (rec.id in mem ==> mem[rec.id].messages <= rec.messages);
  }

  /** Appending refines replacing the record, for as long as, and only for as long as, every save
      continues what was saved before it. */
  lemma {:induction false} AppendRefinesReplace<M>(db: Db<M>, mem: map<string, Record<M>>, saves: seq<Record<M>>, now: int)
    requires Agrees(db, mem)
    ensures AgreeThroughout(db, mem, saves, now) <==> Continuing(mem, saves)
    decreases |saves|
  {
    if saves != [] {
      SaveAgrees(db, mem, saves[0], now);
      if Agrees(Saved(db, saves[0], now), mem[saves[0].id := saves[0]]) {
        AppendRefinesReplace(Saved(db, saves[0], now), mem[saves[0].id := saves[0]], saves[1..], now + 1);
      }
    }
  }

  /** Of two writers that counted the same rows and both have more, the second to commit fails. */
  lemma SecondWriterFails<M>(db: Db<M>, first: Record<M>, second: Record<M>, stored: nat, now: int, later: Db<M>)
    requires Valid(db) && first.id == second.id && stored < |first.messages| && stored < |second.messages|
    requires Commits(db, first, stored)
    requires Valid(later) && Later(Appended(db, first, stored, now), later)
    ensures !Commits(later, second, stored)
  {
    AppendedValid(db, first, stored, now);
    AppendedCount(db, first, stored, now, first.id);
    LaterCounts(Appended(db, first, stored, now), later, first.id);
  }
}
