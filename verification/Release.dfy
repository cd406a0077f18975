/** Releases (hosting/release.go): the pointer that is compared and swapped, and the host that
    installs what it names. A host's file operations may fail, and the process may crash at any of
    them, leaving the operation done, not done or, for a plain write, half done. */
module Release {
  import opened Wrappers
  import opened Bucket

  const CURRENT: string := "releases/current"

  function BinaryKey(sha: string): string {
    "releases/" + sha + "/garage"
  }

  predicate IsHex(c: char) {
    '0' <= c <= '9' || 'a' <= c <= 'f'
  }

  predicate IsSha(s: string) {
    7 <= |s| <= 40 && forall i :: 0 <= i < |s| ==> IsHex(s[i])
  }

  // ---------------------------------------------------------------- the pointer

  /** What a writer that read the pointer does next: create it, or replace the version read. */
  function Plan(objects: map<string, Object>): Cond {
    if CURRENT in objects then IfMatch(objects[CURRENT].etag) else IfNoneMatch
  }

  /** What writes by anybody can have made of the store: nothing is deleted, and an object written
      anew has a later ETag. */
  ghost predicate Later(before: map<string, Object>, after: map<string, Object>) {
    forall k :: k in before ==> k in after && before[k].etag <= after[k].etag
                                && (before[k].etag == after[k].etag ==> before[k] == after[k])
  }

  /** Anybody writes anything. */
  method Others(store: Fake)
    requires store.Valid()
    modifies store`objects, store`version, store`classA
    ensures store.Valid() && Later(old(store.objects), store.objects)
  {
    var writes: seq<(string, Body, Option<Sig>, Cond)> := *;
    for i := 0 to |writes|
      invariant store.Valid() && Later(old(store.objects), store.objects)
    {
      var _ := store.Put(writes[i].0, writes[i].1, writes[i].2, writes[i].3);
    }
  }

  /** Why the pointer is not moved: the bucket cannot be reached, the pointer read is not signed by a
      trusted key, or somebody moved it. */
  ghost predicate Fails(c: Caller, outages: nat, read: map<string, Object>, at: map<string, Object>)
    reads c.store
  {
    || outages < c.store.outages
    || (CURRENT in read && !Verified(CURRENT, read[CURRENT], c.trusted))
    || !Holds(Plan(read), at, CURRENT)
  }

  /** Compare and swap the pointer, with anybody writing in between. read is the store the pointer
      was read from, at the store it was swapped in. */
  method Point(c: Caller, sha: string) returns (r: Result<nat, Fault>, ghost read: map<string, Object>, ghost at: map<string, Object>)
    requires c.store.Valid()
    modifies c.store
    ensures c.store.Valid() && Later(old(c.store.objects), read) && Later(read, at) && Later(at, c.store.objects)
    ensures r.Ok? ==> Holds(Plan(read), at, CURRENT) && c.Wrote(at, c.store.objects, CURRENT, Raw(sha), r.value)
    ensures r.Err? ==> c.store.objects == at
    ensures r.Err? && r.error in {Exists, Conflict} ==> !Holds(Plan(read), at, CURRENT)
    ensures old(c.store.outages) <= c.store.outages
    ensures r.Err? ==> Fails(c, old(c.store.outages), read, at)
  {
    Others(c.store);
    read, at := c.store.objects, c.store.objects;
    var cur := c.Get(CURRENT);
    if cur.Err? && cur.error != NotFound {
      return Err(cur.error), read, at;
    }
    r, at := Move(c, sha, if cur.Ok? then IfMatch(cur.value.etag) else IfNoneMatch);
  }

  /** Write the pointer as planned, after anybody has written. */
  method Move(c: Caller, sha: string, plan: Cond) returns (r: Result<nat, Fault>, ghost at: map<string, Object>)
    requires c.store.Valid() && !plan.Always?
    modifies c.store
    ensures c.store.Valid() && Later(old(c.store.objects), at) && Later(at, c.store.objects)
    ensures r.Ok? ==> Holds(plan, at, CURRENT) && c.Wrote(at, c.store.objects, CURRENT, Raw(sha), r.value)
    ensures r.Err? ==> c.store.objects == at
    ensures r.Err? && r.error in {Exists, Conflict} ==> !Holds(plan, at, CURRENT)
    ensures r.Err? ==> c.store.outages == old(c.store.outages) + 1 || !Holds(plan, at, CURRENT)
    ensures old(c.store.outages) <= c.store.outages
  {
    Others(c.store);
    at := c.store.objects;
    if plan.IfMatch? {
      r := c.Swap(CURRENT, Raw(sha), plan.etag);
    } else {
      r := c.Create(CURRENT, Raw(sha));
    }
  }

  /** Move the pointer to a release that is in the bucket. */
  method Rollback(c: Caller, sha: string) returns (r: Result<nat, Fault>, ghost read: map<string, Object>, ghost at: map<string, Object>)
    requires c.store.Valid()
    modifies c.store
    ensures r.Err? ==> || !IsSha(sha) || Fails(c, old(c.store.outages), read, at)
                       || BinaryKey(sha) !in old(c.store.objects)
                       || !Verified(BinaryKey(sha), old(c.store.objects)[BinaryKey(sha)], c.trusted)
    ensures c.store.Valid() && Later(old(c.store.objects), c.store.objects)
    ensures r.Ok? ==> IsSha(sha) && BinaryKey(sha) in c.store.objects
                      && CURRENT in c.store.objects && c.store.objects[CURRENT].body == Raw(sha)
  {
    read, at := c.store.objects, c.store.objects;
    if !IsSha(sha) {
      return Err(NotFound), read, at;
    }
    var got := c.Get(BinaryKey(sha));
    if got.Err? {
      return Err(got.error), read, at;
    }
    r, read, at := Point(c, sha);
  }

  /** The binary goes into the bucket. */
  method Upload(c: Caller, sha: string, binary: Body) returns (r: Result<nat, Fault>, ghost uploaded: map<string, Object>)
    requires c.store.Valid()
    modifies c.store
    ensures c.store.Valid() && uploaded == c.store.objects && Later(old(c.store.objects), uploaded)
    ensures c.store.outages == if r.Err? then old(c.store.outages) + 1 else old(c.store.outages)
    ensures r.Ok? ==> && BinaryKey(sha) in uploaded && uploaded[BinaryKey(sha)].body == binary
                      && Verified(BinaryKey(sha), uploaded[BinaryKey(sha)], {c.me})
  {
    r := c.Put(BinaryKey(sha), binary);
    uploaded := c.store.objects;
  }

  /** Upload a release, then point at it. uploaded is the store once the binary is in it. */
  method Publish(c: Caller, sha: string, binary: Body)
    returns (r: Result<nat, Fault>, ghost uploaded: map<string, Object>, ghost read: map<string, Object>, ghost at: map<string, Object>)
    requires c.store.Valid()
    modifies c.store
    ensures r.Ok? ==> && BinaryKey(sha) in uploaded && uploaded[BinaryKey(sha)].body == binary
                      && Verified(BinaryKey(sha), uploaded[BinaryKey(sha)], {c.me}) && Later(uploaded, read)
    ensures r.Err? ==> !IsSha(sha) || Fails(c, old(c.store.outages), read, at)
    ensures c.store.Valid() && Later(old(c.store.objects), c.store.objects)
    ensures r.Ok? ==> IsSha(sha) && BinaryKey(sha) in c.store.objects
                      && CURRENT in c.store.objects && c.store.objects[CURRENT].body == Raw(sha)
  {
    uploaded, read, at := c.store.objects, c.store.objects, c.store.objects;
    if !IsSha(sha) {
      return Err(NotFound), uploaded, read, at;
    }
    var put;
    put, uploaded := Upload(c, sha, binary);
    if put.Err? {
      return Err(put.error), uploaded, read, at;
    }
    r, read, at := Point(c, sha);
  }

  /** Of two that read the same version of the pointer, the second to write loses, whatever has
      happened in between. */
  lemma OneWinner(first: Caller, readFirst: map<string, Object>, atFirst: map<string, Object>, after: map<string, Object>,
                  sha: string, etag: nat, readSecond: map<string, Object>, atSecond: map<string, Object>)
    requires Later(readFirst, atFirst) && Holds(Plan(readFirst), atFirst, CURRENT)
    requires first.Wrote(atFirst, after, CURRENT, Raw(sha), etag)
    requires Plan(readSecond) == Plan(readFirst) && Later(after, atSecond)
    ensures !Holds(Plan(readSecond), atSecond, CURRENT)
  {
    assert CURRENT in after && after[CURRENT].etag == etag;
    if CURRENT in readFirst {
      assert CURRENT in atFirst && atFirst[CURRENT].etag < etag;
    }
  }

  /** Two that have read the pointer, one after the other. */
  method MoveBoth(a: Caller, shaA: string, planA: Cond, ghost readA: map<string, Object>,
                  b: Caller, shaB: string, planB: Cond, ghost readB: map<string, Object>)
    returns (r: Result<nat, Fault>, q: Result<nat, Fault>)
    requires a.store == b.store && a.store.Valid() && planA == Plan(readA) && planB == Plan(readB)
    requires Later(readA, a.store.objects) && Later(readB, a.store.objects)
    modifies a.store
    ensures a.store.Valid() && Later(old(a.store.objects), a.store.objects)
    ensures planA == planB ==> !(r.Ok? && q.Ok?)
  {
    ghost var atA, atB;
    r, atA := Move(a, shaA, planA);
    ghost var after := a.store.objects;
    q, atB := Move(b, shaB, planB);
    if r.Ok? && planA == planB {
      OneWinner(a, readA, atA, after, shaA, r.value, readB, atB);
    }
  }

  /** Two that release at once: both read the pointer before either writes it, and anybody may write in
      between. If both read the same version at most one succeeds, whoever writes first. */
  method Race(a: Caller, shaA: string, b: Caller, shaB: string) returns (r: Result<nat, Fault>, q: Result<nat, Fault>,
                                                                        ghost readA: map<string, Object>, ghost readB: map<string, Object>)
    requires a.store == b.store && a.store.Valid()
    modifies a.store
    ensures a.store.Valid() && Later(old(a.store.objects), readA) && Later(readA, readB) && Later(readB, a.store.objects)
    ensures Plan(readA) == Plan(readB) ==> !(r.Ok? && q.Ok?)
  {
    Others(a.store);
    readA := a.store.objects;
    var curA := a.Get(CURRENT);
    Others(a.store);
    readB := a.store.objects;
    var curB := b.Get(CURRENT);
    r, q := Err(Unavailable), Err(Unavailable);
    if (curA.Err? && curA.error != NotFound) || (curB.Err? && curB.error != NotFound) {
      return;
    }
    var planA := if curA.Ok? then IfMatch(curA.value.etag) else IfNoneMatch;
    var planB := if curB.Ok? then IfMatch(curB.value.etag) else IfNoneMatch;
    var aFirst: bool := *;
    if aFirst {
      r, q := MoveBoth(a, shaA, planA, readA, b, shaB, planB, readB);
    } else {
      q, r := MoveBoth(b, shaB, planB, readB, a, shaA, planA, readA);
    }
  }

  // ---------------------------------------------------------------- the host

  /** An operation on a file: done, refused, or cut short by a crash. */
  datatype Fate = Done | Refused | Cut

  /** What Update returns: a sha or "" for nothing new, an error, or never. */
  datatype Outcome = Returned(sha: string) | Failed | Crashed

  /** White space, as Unicode has it. */
  predicate IsSpace(c: char) {
    || '\t' <= c <= '\r' || c == ' ' || c == '\U{85}' || c == '\U{A0}' || c == '\U{1680}' || '\U{2000}' <= c <= '\U{200A}'
    || c == '\U{2028}' || c == '\U{2029}' || c == '\U{202F}' || c == '\U{205F}' || c == '\U{3000}'
  }

  function Trim(s: string): string {
    if s != [] && IsSpace(s[0]) then Trim(s[1..])
    else if s != [] && IsSpace(s[|s| - 1]) then Trim(s[..|s| - 1])
    else s
  }

  /** An object as the text of a pointer; a mail message is JSON, which is no sha. */
  function PointerText(body: Body): string {
    match body
    case Raw(text) => Trim(text)
    case Letter(_) => "{}"
  }

  ghost predicate Blank(s: string) {
    forall i :: 0 <= i < |s| ==> IsSpace(s[i])
  }

  /** Trimming takes the white space around a text, and nothing else. */
  lemma {:induction false} TrimCore(a: string, s: string, b: string)
    requires Blank(a) && Blank(b) && (s != [] ==> !IsSpace(s[0]) && !IsSpace(s[|s| - 1]))
    ensures Trim(a + s + b) == s
    decreases |a| + |b|
  {
    var text := a + s + b;
    if a != [] {
      assert text[0] == a[0] && text[1..] == a[1..] + s + b;
      TrimCore(a[1..], s, b);
    } else if b != [] {
      if s == [] {
        assert text[0] == b[0] && text[1..] == a + s + b[1..];
        TrimCore(a, s, b[1..]);
      } else {
        assert text[0] == s[0] && text[|text| - 1] == b[|b| - 1] && text[..|text| - 1] == a + s + b[..|b| - 1];
        TrimCore(a, s, b[..|b| - 1]);
      }
    } else {
      assert text == s;
    }
  }

  /** A pointer that holds a text, with white space around it or not, is read as that text; so what
      Point writes is what a host looks for. */
  lemma PointerReads(a: string, s: string, b: string)
    requires Blank(a) && Blank(b) && (s != [] ==> !IsSpace(s[0]) && !IsSpace(s[|s| - 1]))
    ensures PointerText(Raw(a + s + b)) == s
  {
    TrimCore(a, s, b);
  }

  lemma ShaIff(s: string)
    ensures IsSha(s) <==> 7 <= |s| <= 40 && forall i :: 0 <= i < |s| ==> s[i] in "0123456789abcdef"
  {
    forall i | 0 <= i < |s|
      ensures IsHex(s[i]) <==> s[i] in "0123456789abcdef"
    {
      HexIs(s[i]);
    }
  }

  lemma ShaReads(sha: string)
    requires IsSha(sha)
    ensures PointerText(Raw(sha)) == sha
  {
    HexIs(sha[0]);
    HexIs(sha[|sha| - 1]);
    PointerReads("", sha, "");
    assert "" + sha + "" == sha;
  }

  lemma HexIs(c: char)
    ensures IsHex(c) <==> c in "0123456789abcdef"
    ensures IsHex(c) ==> !IsSpace(c)
  {
    var digits := "0123456789abcdef";
    if c in digits {
      var i :| 0 <= i < |digits| && digits[i] == c;
    }
    if IsHex(c) {
      var i := if c <= '9' then c as int - '0' as int else c as int - 'a' as int + 10;
      assert digits[i] == c;
    }
  }

  /** Position j, after i, where the pointer was found at something else than at i. */
  predicate Moved(looks: seq<string>, i: nat, j: nat) {
    i < j < |looks| && looks[j] != looks[i]
  }

  ghost predicate MovedBy(looks: seq<string>, i: nat, last: nat) {
    exists j: nat :: j <= last && Moved(looks, i, j)
  }

  /** After an attempt, the pointer was seen elsewhere before the next one. */
  ghost predicate TriedOnce(looks: seq<string>, attempts: seq<nat>) {
    && (forall a :: 0 <= a < |attempts| ==> attempts[a] < |looks|)
    && (forall a, b :: 0 <= a < b < |attempts| ==> attempts[a] < attempts[b] && MovedBy(looks, attempts[a], attempts[b]))
  }

  function LastOf(attempts: seq<nat>): nat
    requires attempts != []
  {
    attempts[|attempts| - 1]
  }

  /** Unless the pointer was seen to move since the last attempt, seen holds what was attempted. */
  ghost predicate Remembers(looks: seq<string>, attempts: seq<nat>, seen: Option<string>)
    requires TriedOnce(looks, attempts)
  {
    attempts != [] ==> seen == Some(looks[LastOf(attempts)]) || MovedBy(looks, LastOf(attempts), |looks|)
  }

  lemma MovedGrows(looks: seq<string>, want: string, i: nat, last: nat)
    requires MovedBy(looks, i, last)
    ensures MovedBy(looks + [want], i, last) && MovedBy(looks + [want], i, |looks| + 1)
  {
    var j: nat :| j <= last && Moved(looks, i, j);
    assert Moved(looks + [want], i, j);
  }

  lemma Looked(looks: seq<string>, attempts: seq<nat>, seen: Option<string>, want: string)
    requires TriedOnce(looks, attempts) && Remembers(looks, attempts, seen)
    ensures TriedOnce(looks + [want], attempts) && Remembers(looks + [want], attempts, seen)
  {
    forall a, b | 0 <= a < b < |attempts|
      ensures MovedBy(looks + [want], attempts[a], attempts[b])
    {
      MovedGrows(looks, want, attempts[a], attempts[b]);
    }
    if attempts != [] && MovedBy(looks, LastOf(attempts), |looks|) {
      MovedGrows(looks, want, LastOf(attempts), |looks|);
    }
  }

  /** A look that found something else than what seen holds may overwrite it with anything. */
  lemma Overwritten(looks: seq<string>, attempts: seq<nat>, seen: Option<string>)
    requires looks != [] && seen != Some(looks[|looks| - 1])
    requires TriedOnce(looks, attempts) && Remembers(looks, attempts, seen)
    requires attempts != [] ==> LastOf(attempts) < |looks| - 1
    ensures attempts != [] ==> MovedBy(looks, LastOf(attempts), |looks|)
  {
    if attempts != [] && seen == Some(looks[LastOf(attempts)]) {
      assert Moved(looks, LastOf(attempts), |looks| - 1);
    }
  }

  lemma MovedInside(looks: seq<string>, i: nat, last: nat)
    requires MovedBy(looks, i, last)
    ensures MovedBy(looks, i, |looks| - 1)
  {
    var j: nat :| j <= last && Moved(looks, i, j);
    assert j <= |looks| - 1 && Moved(looks, i, j);
  }

  lemma Attempted(looks: seq<string>, attempts: seq<nat>)
    requires looks != [] && TriedOnce(looks, attempts)
    requires attempts != [] ==> LastOf(attempts) < |looks| - 1 && MovedBy(looks, LastOf(attempts), |looks|)
    ensures TriedOnce(looks, attempts + [|looks| - 1])
    ensures Remembers(looks, attempts + [|looks| - 1], Some(looks[|looks| - 1]))
  {
    var now: nat := |looks| - 1;
    forall a | 0 <= a < |attempts|
      ensures attempts[a] < now && MovedBy(looks, attempts[a], now)
    {
      assert a < |attempts| - 1 ==> MovedBy(looks, attempts[a], LastOf(attempts));
      MovedInside(looks, attempts[a], if a < |attempts| - 1 then LastOf(attempts) else |looks|);
    }
  }

  predicate Keeps(before: map<string, Body>, after: map<string, Body>) {
    forall sha :: sha in before ==> sha in after && after[sha] == before[sha]
  }

  /** Whether a look that found want leads to an attempt. */
  predicate Due(seen: Option<string>, current: Option<string>, want: string) {
    seen.Some? && want != seen.value && want != "" && current != Some(want)
  }

  /** The files that an attempt may change, with what was read under a valid signature and what
      passed its trial run. */
  datatype Files = Files(installed: map<string, Body>, staged: map<string, Body>, current: Option<string>, next: Option<string>,
                         verified: set<(string, Object)>, passed: set<Body>)

  class Host {
    const trusted: set<Party>
    // The files: seen, <sha>/garage, <sha>/garage.new, and the links current and current.new.
    var seen: Option<string>
    var installed: map<string, Body>
    var staged: map<string, Body>
    var current: Option<string>
    var next: Option<string>

    // What setup left, and the history: objects read with a valid signature, by release; bodies
    // that passed their trial run; what each look found the pointer at, and the looks that led to
    // an attempt at installing.
    ghost const setup: map<string, Body>
    ghost const first: Option<string>
    ghost var verified: set<(string, Object)>
    ghost var passed: set<Body>
    ghost var looks: seq<string>
    ghost var attempts: seq<nat>
    /** How often the files, a trial run or the process itself failed. */
    ghost var troubles: nat

    constructor (trusted: set<Party>, installed: map<string, Body>, current: Option<string>)
      ensures Safe() && History() && this.trusted == trusted
    {
      this.trusted, seen, this.installed, staged, this.current, next := trusted, None, installed, map[], current, None;
      setup, first, verified, passed, looks, attempts, troubles := installed, current, {}, {}, [], [], 0;
    }

    /** A binary that was read with a valid signature as this release's and passed its trial run. */
    ghost predicate Vetted(sha: string, body: Body)
      reads this
    {
      body in passed && exists obj :: (sha, obj) in verified && obj.body == body
    }

    ghost predicate Genuine(sha: string, body: Body)
      reads this
    {
      Vetted(sha, body) || (sha in setup && setup[sha] == body)
    }

    /** Holds at every instant, so also wherever the process crashes. */
    ghost predicate Safe()
      reads this
    {
      && (forall p :: p in verified ==> Verified(BinaryKey(p.0), p.1, trusted))
      && (forall sha :: sha in installed ==> Genuine(sha, installed[sha]))
      && (current == first || (current.Some? && current.value in installed))
    }

    ghost predicate History()
      reads this
    {
      TriedOnce(looks, attempts) && Remembers(looks, attempts, seen)
    }

    ghost function Binaries(): Files
      reads this
    {
      Files(installed, staged, current, next, verified, passed)
    }

    function Running(): string
      reads this`current
    {
      if current.Some? then current.value else ""
    }

    /** What was not done has left its trace. */
    static predicate Traced(fate: Fate, before: nat, after: nat) {
      if fate == Done then before == after else before < after
    }

    /** The bucket has something under key that a trusted key signed. */
    predicate Has(c: Caller, key: string)
      reads c.store
    {
      key in c.store.objects && Verified(key, c.store.objects[key], trusted)
    }

    method FileOp() returns (fate: Fate, takes: bool)
      modifies this`troubles
      ensures troubles == if fate == Done then old(troubles) else old(troubles) + 1
      ensures fate == Done ==> takes
      ensures fate == Refused ==> !takes
    {
      var done: bool := *;
      var cut: bool := *;
      takes := *;
      fate := if done then Done else if cut then Cut else Refused;
      takes := done || (cut && takes);
      troubles := if done then troubles else troubles + 1;
    }

    /** A plain write of seen: unless done, it may be left holding anything. */
    method WriteSeen(want: string) returns (fate: Fate)
      modifies this`seen, this`troubles
      ensures Traced(fate, old(troubles), troubles)
      ensures fate == Done ==> seen == Some(want)
    {
      var torn: bool := *;
      var rest: string := *;
      var takes;
      fate, takes := FileOp();
      if takes {
        seen := Some(want);
      } else if torn {
        seen := Some(rest);
      }
    }

    /** A plain write of the new binary, beside its final name. */
    method WriteStaged(sha: string, body: Body) returns (fate: Fate)
      modifies this`staged, this`troubles
      ensures Traced(fate, old(troubles), troubles)
      ensures fate == Done ==> sha in staged && staged[sha] == body
    {
      var torn: bool := *;
      var rest: string := *;
      var takes;
      fate, takes := FileOp();
      if takes {
        staged := staged[sha := body];
      } else if torn {
        staged := staged[sha := Raw(rest)];
      }
    }

    /** Whether the new binary runs here. */
    method Trial(sha: string) returns (runs: bool)
      requires sha in staged && Safe()
      modifies this`passed, this`troubles
      ensures troubles == if runs then old(troubles) else old(troubles) + 1
      ensures Safe() && passed == (if runs then old(passed) + {staged[sha]} else old(passed))
    {
      runs := *;
      if runs {
        passed := passed + {staged[sha]};
      } else {
        troubles := troubles + 1;
      }
    }

    /** The new binary takes its final name. */
    method Adopt(sha: string) returns (fate: Fate)
      requires Safe() && sha in staged && sha !in installed && Vetted(sha, staged[sha])
      modifies this`installed, this`staged, this`troubles
      ensures Traced(fate, old(troubles), troubles)
      ensures Safe() && (fate == Done ==> sha in installed)
      ensures Keeps(old(installed), installed)
    {
      var takes;
      fate, takes := FileOp();
      if takes {
        installed := installed[sha := staged[sha]];
        staged := staged - {sha};
      }
    }

    /** The link renamed over current. */
    method Rename(sha: string) returns (fate: Fate)
      requires Safe() && sha in installed && next == Some(sha)
      modifies this`current, this`next, this`troubles
      ensures Traced(fate, old(troubles), troubles)
      ensures Safe() && (fate == Done ==> current == Some(sha)) && (fate == Refused ==> current == old(current))
      ensures current == old(current) || current == Some(sha)
    {
      var takes;
      fate, takes := FileOp();
      if takes {
        current, next := next, None;
      }
    }

    /** The new link beside current, in place of one that was left there. */
    method NewLink(sha: string) returns (fate: Fate)
      modifies this`next, this`troubles
      ensures Traced(fate, old(troubles), troubles)
      ensures fate == Done ==> next == Some(sha)
    {
      var takes;
      if next.Some? {
        fate, takes := FileOp();
        next := if takes then None else next;
        if fate != Done {
          return;
        }
      }
      fate, takes := FileOp();
      next := if takes then Some(sha) else next;
    }

    /** Points current at an installed release, through a link renamed over it. */
    method Link(sha: string) returns (fate: Fate)
      requires Safe() && sha in installed
      modifies this`current, this`next, this`troubles
      ensures Traced(fate, old(troubles), troubles)
      ensures Safe() && (fate == Done ==> current == Some(sha)) && (fate == Refused ==> current == old(current))
      ensures current == old(current) || current == Some(sha)
    {
      if current == Some(sha) {
        return Done;
      }
      var takes;
      fate, takes := FileOp(); // the directory
      if fate != Done {
        return;
      }
      fate := NewLink(sha);
      if fate == Done {
        fate := Rename(sha);
      }
    }

    /** Tries the binary just written and gives it its final name, or removes it. */
    method TryAndAdopt(sha: string, ghost obj: Object) returns (fate: Fate)
      requires Safe() && sha !in installed && sha in staged && staged[sha] == obj.body && (sha, obj) in verified
      modifies this`installed, this`staged, this`passed, this`troubles
      ensures Traced(fate, old(troubles), troubles)
      ensures Safe() && (fate == Done ==> sha in installed) && Keeps(old(installed), installed)
    {
      var runs := Trial(sha);
      if runs {
        assert Vetted(sha, staged[sha]);
        fate := Adopt(sha);
        return;
      }
      var takes;
      fate, takes := FileOp();
      if takes {
        staged := staged - {sha};
      }
      fate := if fate == Cut then Cut else Refused;
    }

    /** A binary the bucket has for sha, signed by a trusted key. */
    method Download(c: Caller, sha: string) returns (got: Result<Object, Fault>)
      requires Safe() && c.store.Valid() && c.trusted == trusted
      modifies this`verified, c.store
      ensures Safe() && c.store.Valid() && (got.Ok? ==> (sha, got.value) in verified)
      ensures old(c.store.outages) <= c.store.outages
      ensures got.Err? ==> old(c.store.outages) < c.store.outages || !Has(c, BinaryKey(sha))
      ensures c.store.classB <= old(c.store.classB) + 1
    {
      Others(c.store);
      got := c.Get(BinaryKey(sha));
      if got.Ok? {
        verified := verified + {(sha, got.value)};
      }
    }

    /** Fetches release sha, tries it, and gives it its final name. */
    method Fetch(c: Caller, sha: string) returns (fate: Fate)
      requires Safe() && c.store.Valid() && c.trusted == trusted && sha !in installed
      modifies this`installed, this`staged, this`verified, this`passed, this`troubles, c.store
      ensures old(c.store.outages) <= c.store.outages
      ensures fate == Done ==> troubles == old(troubles)
      ensures fate != Done ==> old(troubles) < troubles || old(c.store.outages) < c.store.outages || !Has(c, BinaryKey(sha))
      ensures Safe() && c.store.Valid() && (fate == Done ==> sha in installed) && Keeps(old(installed), installed)
      ensures c.store.classB <= old(c.store.classB) + 1
    {
      var got := Download(c, sha);
      if got.Err? {
        return Refused;
      }
      var takes;
      fate, takes := FileOp(); // the directory
      if fate == Done {
        fate := WriteStaged(sha, got.value.body);
      }
      if fate == Done {
        fate := TryAndAdopt(sha, got.value);
      }
    }

    /** Why release sha is not installed: the files, the trial run, the process or the bucket failed,
        it is no sha, or it is neither here nor, signed by a trusted key, in the bucket. */
    ghost predicate Excused(c: Caller, sha: string, had: map<string, Body>, before: nat, outages: nat)
      reads this`troubles, c.store
    {
      before < troubles || outages < c.store.outages || !IsSha(sha) || (sha !in had && !Has(c, BinaryKey(sha)))
    }

    /** An attempt at release sha, which the last look found; it is on record whatever comes of it. */
    method Install(c: Caller, sha: string) returns (fate: Fate)
      requires Safe() && c.store.Valid() && c.trusted == trusted
      requires looks != [] && sha == looks[|looks| - 1] && seen == Some(sha) && TriedOnce(looks, attempts)
      requires attempts != [] ==> LastOf(attempts) < |looks| - 1 && MovedBy(looks, LastOf(attempts), |looks|)
      modifies this`installed, this`staged, this`verified, this`passed, this`current, this`next, this`attempts, this`troubles, c.store
      ensures old(c.store.outages) <= c.store.outages
      ensures fate == Done ==> troubles == old(troubles)
      ensures fate != Done ==> Excused(c, sha, old(installed), old(troubles), old(c.store.outages))
      ensures Safe() && History() && c.store.Valid() && attempts == old(attempts) + [|looks| - 1]
      ensures fate == Done ==> IsSha(sha) && current == Some(sha) && sha in installed
      ensures fate == Refused ==> current == old(current)
      ensures current == old(current) || (current == Some(sha) && sha in installed)
      ensures Keeps(old(installed), installed) && c.store.classB <= old(c.store.classB) + 1
    {
      Attempted(looks, attempts);
      attempts := attempts + [|looks| - 1];
      if !IsSha(sha) {
        return Refused;
      }
      if sha !in installed {
        fate := Fetch(c, sha);
        if fate != Done {
          return;
        }
      }
      fate := Link(sha);
    }

    /** want is what releases/current holds in found, "" if there is none there. */
    predicate Shows(found: map<string, Object>, want: string) {
      if CURRENT in found then Verified(CURRENT, found[CURRENT], trusted) && want == PointerText(found[CURRENT].body)
      else want == ""
    }

    /** The pointer as the bucket has it now, "" if there is none. */
    method Look(c: Caller) returns (want: Option<string>, ghost found: map<string, Object>)
      requires History() && c.store.Valid() && c.trusted == trusted
      modifies this`looks, c.store
      ensures c.store.Valid() && History()
      ensures looks == if want.Some? then old(looks) + [want.value] else old(looks)
      ensures found == c.store.objects && Later(old(c.store.objects), found) && old(c.store.outages) <= c.store.outages
      ensures want.Some? ==> c.store.outages == old(c.store.outages) && Shows(found, want.value)
      ensures want.None? ==> old(c.store.outages) < c.store.outages || (CURRENT in found && !Has(c, CURRENT))
      ensures c.store.classB <= old(c.store.classB) + 1
    {
      Others(c.store);
      found := c.store.objects;
      var got := c.Get(CURRENT);
      if got.Err? && got.error != NotFound {
        return None, found;
      }
      want := Some(if got.Ok? then PointerText(got.value.body) else "");
      Looked(looks, attempts, seen, want.value);
      looks := looks + [want.value];
    }

    /** Remembers that the look that is last found the pointer moved. */
    method Remember(want: string) returns (fate: Fate)
      requires History() && looks != [] && want == looks[|looks| - 1] && seen != Some(want)
      requires attempts != [] ==> LastOf(attempts) < |looks| - 1
      modifies this`seen, this`troubles
      ensures Traced(fate, old(troubles), troubles)
      ensures History() && (fate == Done ==> seen == Some(want))
      ensures attempts != [] ==> MovedBy(looks, LastOf(attempts), |looks|)
    {
      Overwritten(looks, attempts, seen);
      var takes;
      fate, takes := FileOp(); // the directory
      if fate == Done {
        fate := WriteSeen(want);
      }
    }

    /** What follows from a look that found want. Without an attempt on record nothing was fetched,
        tried, installed or linked. */
    method Follow(c: Caller, want: string) returns (r: Outcome)
      requires Safe() && History() && c.store.Valid() && c.trusted == trusted
      requires looks != [] && want == looks[|looks| - 1] && (attempts != [] ==> LastOf(attempts) < |looks| - 1)
      modifies this`seen, this`installed, this`staged, this`verified, this`passed, this`current, this`next
      modifies this`attempts, this`troubles, c.store
      ensures old(c.store.outages) <= c.store.outages
      ensures r.Returned? ==> troubles == old(troubles)
      ensures !r.Returned? ==> Excused(c, want, old(installed), old(troubles), old(c.store.outages))
      ensures Safe() && History() && c.store.Valid() && Keeps(old(installed), installed)
      ensures attempts == old(attempts) || attempts == old(attempts) + [|looks| - 1]
      ensures attempts == old(attempts) ==> Binaries() == old(Binaries()) && c.store.classB == old(c.store.classB)
      ensures c.store.classB <= old(c.store.classB) + 1
      ensures r.Failed? ==> current == old(current)
      ensures r.Returned? ==> seen == Some(want) && r.sha == if Due(old(seen), old(current), want) then want else ""
      ensures r.Returned? ==> if r.sha == "" then current == old(current) else current == Some(want)
      ensures current == old(current) || (current == Some(want) && want in installed)
    {
      var isFirst := seen.None?;
      if !isFirst && want == seen.value {
        return Returned("");
      }
      var fate := Remember(want);
      if fate != Done {
        return if fate == Cut then Crashed else Failed;
      }
      if isFirst || want == "" || want == Running() {
        return Returned("");
      }
      fate := Install(c, want);
      match fate {
        case Done => return Returned(want);
        case Refused => return Failed;
        case Cut => return Crashed;
      }
    }

    /** Reads the file seen, then looks; a look that fails has its reason. */
    method Peek(c: Caller) returns (want: Option<string>, r: Outcome, ghost found: map<string, Object>)
      requires History() && c.store.Valid() && c.trusted == trusted
      modifies this`looks, this`troubles, c.store
      ensures c.store.Valid() && History() && Later(old(c.store.objects), found) && old(c.store.outages) <= c.store.outages
      ensures c.store.classB <= old(c.store.classB) + 1
      ensures looks == if want.Some? then old(looks) + [want.value] else old(looks)
      ensures want.Some? ==> troubles == old(troubles) && Shows(found, want.value)
      ensures want.None? ==> && !r.Returned?
                             && (|| old(troubles) < troubles || old(c.store.outages) < c.store.outages
                                 || (CURRENT in found && !Verified(CURRENT, found[CURRENT], trusted)))
    {
      var fate, _ := FileOp();
      want, r, found := None, if fate == Cut then Crashed else Failed, c.store.objects;
      if fate == Done {
        want, found := Look(c);
      }
    }

    /** One look at the pointer, and the install it may lead to. found is the bucket it looked at.
        It returns normally unless something failed: the files, the trial run, the process, the bucket,
        or a signature; or releases/current names no release, or one the bucket does not have. */
    method Update(c: Caller) returns (r: Outcome, ghost found: map<string, Object>)
      requires Safe() && History() && c.store.Valid() && c.trusted == trusted
      modifies this, c.store
      ensures Safe() && History() && c.store.Valid() && Keeps(old(installed), installed)
      ensures looks == old(looks) || (|looks| == |old(looks)| + 1 && old(looks) <= looks)
      ensures attempts == old(attempts) || (|looks| == |old(looks)| + 1 && attempts == old(attempts) + [|old(looks)|])
      ensures attempts == old(attempts) ==> Binaries() == old(Binaries()) && c.store.classB <= old(c.store.classB) + 1
      ensures c.store.classB <= old(c.store.classB) + 2
      ensures Later(old(c.store.objects), found) && (|looks| > |old(looks)| ==> Shows(found, looks[|old(looks)|]))
      ensures r.Returned? ==> troubles == old(troubles)
      ensures !r.Returned? ==>
                if |looks| == |old(looks)|
                then || old(troubles) < troubles || old(c.store.outages) < c.store.outages
                     || (CURRENT in found && !Verified(CURRENT, found[CURRENT], trusted))
                else Excused(c, looks[|old(looks)|], old(installed), old(troubles), old(c.store.outages))
      ensures r.Failed? ==> current == old(current)
      ensures r.Returned? ==> |looks| == |old(looks)| + 1 && seen == Some(looks[|old(looks)|])
                              && (if && old(seen).Some? && looks[|old(looks)|] != old(seen).value && looks[|old(looks)|] != ""
                                     && old(current) != Some(looks[|old(looks)|])
                                  then r.sha == looks[|old(looks)|] else r.sha == "")
      ensures r.Returned? ==> if r.sha == "" then current == old(current) else current == Some(r.sha)
      ensures current == old(current)
              || (|looks| == |old(looks)| + 1 && current == Some(looks[|old(looks)|]) && current.value in installed)
    {
      var look;
      look, r, found := Peek(c);
      if look.None? {
        return;
      }
      r := Follow(c, look.value);
    }
  }

  /** Whatever was interrupted wherever: what the host runs is what setup linked, or a binary that
      setup installed, or one that was read under a trusted key as that release's and ran here. */
  lemma CurrentIsGenuine(h: Host)
    requires h.Safe() && h.current != h.first
    ensures h.current.Some? && h.current.value in h.installed
    ensures var sha := h.current.value;
            || (sha in h.setup && h.setup[sha] == h.installed[sha])
            || (h.installed[sha] in h.passed
                && exists obj: Object :: obj.body == h.installed[sha] && Verified(BinaryKey(sha), obj, h.trusted))
  {
    var sha := h.current.value;
    assert h.Genuine(sha, h.installed[sha]);
    if h.Vetted(sha, h.installed[sha]) {
      var obj :| (sha, obj) in h.verified && obj.body == h.installed[sha];
      var p := (sha, obj);
      assert p in h.verified && Verified(BinaryKey(p.0), p.1, h.trusted);
    }
  }

  /** A release is attempted again only after the pointer was seen at another one in between. */
  lemma TriedOncePerMove(h: Host, a: nat, b: nat)
    requires h.History() && a < b < |h.attempts| && h.looks[h.attempts[a]] == h.looks[h.attempts[b]]
    ensures exists j :: h.attempts[a] < j < h.attempts[b] && h.looks[j] != h.looks[h.attempts[a]]
  {
    assert MovedBy(h.looks, h.attempts[a], h.attempts[b]);
    var j: nat :| j <= h.attempts[b] && Moved(h.looks, h.attempts[a], j);
    assert j != h.attempts[b];
  }

  /** A release from one side to the other: what was pointed at is what runs, if the host is not at its
      first look, looks before the pointer moves again, and nothing fails; and what it runs is then
      genuine. */
  method Rollout(dev: Caller, sha: string, h: Host, c: Caller) returns (p: Result<nat, Fault>, r: Outcome, ghost found: map<string, Object>)
    requires h.Safe() && h.History() && c.store.Valid() && c.trusted == h.trusted && dev.store == c.store
    requires 7 <= |sha| <= 40 && forall i :: 0 <= i < |sha| ==> sha[i] in "0123456789abcdef"
    modifies h, c.store
    ensures h.Safe() && h.History() && c.store.Valid()
    ensures p.Ok? && r.Returned? && CURRENT in found && found[CURRENT].etag == p.value && old(h.seen).Some? ==>
              && h.seen == Some(sha)
              && (if old(h.seen) == Some(sha) then h.current == old(h.current) else h.current == Some(sha))
              && (r.sha == if old(h.seen) != Some(sha) && old(h.current) != Some(sha) then sha else "")
  {
    ghost var read, at;
    p, read, at := Point(dev, sha);
    ghost var before := c.store.objects;
    r, found := h.Update(c);
    if p.Ok? && CURRENT in found && found[CURRENT].etag == p.value {
      assert before[CURRENT].etag == p.value && before[CURRENT].body == Raw(sha);
      ShaIff(sha);
      ShaReads(sha);
    }
  }

  /** Any number of looks, some cut short by a crash and taken up by the next process. */
  method Poll(h: Host, c: Caller, times: nat)
    requires h.Safe() && h.History() && c.store.Valid() && c.trusted == h.trusted
    modifies h, c.store
    ensures h.Safe() && h.History() && c.store.Valid()
    ensures Keeps(old(h.installed), h.installed) && old(h.looks) <= h.looks && old(h.attempts) <= h.attempts
    ensures |h.attempts| - old(|h.attempts|) <= |h.looks| - old(|h.looks|) <= times
    ensures c.store.classB - old(c.store.classB) <= times + |h.attempts| - old(|h.attempts|)
    ensures h.attempts == old(h.attempts) ==> h.Binaries() == old(h.Binaries())
  {
    for i := 0 to times
      invariant h.Safe() && h.History() && c.store.Valid()
      invariant Keeps(old(h.installed), h.installed) && old(h.looks) <= h.looks && old(h.attempts) <= h.attempts
      invariant |h.attempts| - old(|h.attempts|) <= |h.looks| - old(|h.looks|) <= i
      invariant c.store.classB - old(c.store.classB) <= i + |h.attempts| - old(|h.attempts|)
      invariant h.attempts == old(h.attempts) ==> h.Binaries() == old(h.Binaries())
    {
      var _, _ := h.Update(c);
    }
  }
}
