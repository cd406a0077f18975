/** A numbered box of mail in the bucket (bucket/mail/mail.go): senders race for numbers with
    create-only writes, and a reader walks the numbers until one is missing. */
module Mailbox {
  import opened Wrappers
  import opened Bucket
  import opened Numerals

  datatype Box = ToHost | ToLaptop

  function Prefix(box: Box): string {
    match box
    case ToHost => "mail/to-host/"
    case ToLaptop => "mail/to-laptop/"
  }

  function KeyOf(box: Box, n: nat): string {
    Prefix(box) + Decimal(n)
  }

  /** No two numbers of any two boxes share a key. */
  lemma KeyInjective(b: Box, m: nat, c: Box, n: nat)
    requires KeyOf(b, m) == KeyOf(c, n)
    ensures b == c && m == n
  {
    assert KeyOf(b, m)[8] == Prefix(b)[8] && KeyOf(c, n)[8] == Prefix(c)[8];
    assert KeyOf(b, m)[|Prefix(b)|..] == Decimal(m) && KeyOf(c, n)[|Prefix(c)|..] == Decimal(n);
    DecimalInjective(m, n);
  }

  /** The mail a reader takes an object for: signed by someone it trusts, and a chat message with
      a room and a text. */
  function Readable(objects: map<string, Object>, trusted: set<Party>, box: Box, n: nat): Option<Message> {
    var key := KeyOf(box, n);
    if key in objects && Verified(key, objects[key], trusted)
       && objects[key].body.Letter? && objects[key].body.m.room != "" && objects[key].body.m.text != ""
    then Some(objects[key].body.m) else None
  }

  /** Mail that was sent is read as it was sent, under the number it took, by exactly those who trust
      its sender, provided it has a room and a text; under no other number does it count. */
  lemma SentIsRead(c: Caller, before: map<string, Object>, after: map<string, Object>, box: Box, n: nat, m: Message,
                   etag: nat, trusted: set<Party>)
    requires c.Wrote(before, after, KeyOf(box, n), Letter(m), etag)
    ensures Readable(after, trusted, box, n)
         == if c.me in trusted && m.room != "" && m.text != "" then Some(m) else None
    ensures forall b: Box, i: nat :: (b, i) != (box, n) ==> Readable(after, trusted, b, i) == Readable(before, trusted, b, i)
  {
    WrittenVerifies(c, before, after, KeyOf(box, n), Letter(m), etag, trusted, "");
    forall b: Box, i: nat | (b, i) != (box, n)
      ensures Readable(after, trusted, b, i) == Readable(before, trusted, b, i)
    {
      if KeyOf(b, i) == KeyOf(box, n) {
        KeyInjective(b, i, box, n);
      }
    }
  }

  /** A copy of somebody's mail under another number is nobody's mail. */
  lemma CopiesAreForged(objects: map<string, Object>, trusted: set<Party>, box: Box, n: nat, b: Box, i: nat)
    requires KeyOf(b, i) in objects && objects[KeyOf(b, i)].sig.Some? && objects[KeyOf(b, i)].sig.value.key == KeyOf(box, n)
    requires (b, i) != (box, n)
    ensures Readable(objects, trusted, b, i).None?
  {
    if KeyOf(b, i) == KeyOf(box, n) {
      KeyInjective(b, i, box, n);
    }
  }

  datatype Delivery = Delivery(n: nat, m: Message)

  /** What reading numbers p up to but not including r hands over. */
  function Delivered(objects: map<string, Object>, trusted: set<Party>, box: Box, p: nat, r: nat): seq<Delivery>
    requires p <= r
    decreases r - p
  {
    if p == r then []
    else
      var before := Delivered(objects, trusted, box, p, r - 1);
      match Readable(objects, trusted, box, r - 1)
      case Some(m) => before + [Delivery(r - 1, m)]
      case None => before
  }

  ghost predicate HandsOver(ds: seq<Delivery>, n: nat) {
    exists i :: 0 <= i < |ds| && ds[i].n == n
  }

  lemma {:induction false} DeliveredEach(objects: map<string, Object>, trusted: set<Party>, box: Box, p: nat, r: nat, n: nat)
    requires p <= n < r && Readable(objects, trusted, box, n).Some?
    ensures HandsOver(Delivered(objects, trusted, box, p, r), n)
    decreases r - p
  {
    var before, ds := Delivered(objects, trusted, box, p, r - 1), Delivered(objects, trusted, box, p, r);
    if n < r - 1 {
      DeliveredEach(objects, trusted, box, p, r - 1, n);
      var i :| 0 <= i < |before| && before[i].n == n;
      assert ds[i].n == n;
    } else {
      assert ds[|before|].n == n;
    }
  }

  lemma {:induction false} DeliveredOnly(objects: map<string, Object>, trusted: set<Party>, box: Box, p: nat, r: nat)
    requires p <= r
    ensures var ds := Delivered(objects, trusted, box, p, r);
            && (forall i :: 0 <= i < |ds| ==> p <= ds[i].n < r && Readable(objects, trusted, box, ds[i].n) == Some(ds[i].m))
            && (forall i, j :: 0 <= i < j < |ds| ==> ds[i].n < ds[j].n)
    decreases r - p
  {
    if p < r {
      DeliveredOnly(objects, trusted, box, p, r - 1);
      DeliveredNext(objects, trusted, box, p, r - 1);
      var before, ds := Delivered(objects, trusted, box, p, r - 1), Delivered(objects, trusted, box, p, r);
      assert forall i :: 0 <= i < |before| ==> ds[i] == before[i];
    }
  }

  /** Deliveries are exactly the readable numbers of the range, each once, in order. */
  lemma DeliveredExactly(objects: map<string, Object>, trusted: set<Party>, box: Box, p: nat, r: nat)
    requires p <= r
    ensures var ds := Delivered(objects, trusted, box, p, r);
            && (forall i :: 0 <= i < |ds| ==> p <= ds[i].n < r && Readable(objects, trusted, box, ds[i].n) == Some(ds[i].m))
            && (forall i, j :: 0 <= i < j < |ds| ==> ds[i].n < ds[j].n)
            && (forall n :: p <= n < r && Readable(objects, trusted, box, n).Some? ==> HandsOver(ds, n))
  {
    DeliveredOnly(objects, trusted, box, p, r);
    forall n | p <= n < r && Readable(objects, trusted, box, n).Some?
      ensures HandsOver(Delivered(objects, trusted, box, p, r), n)
    {
      DeliveredEach(objects, trusted, box, p, r, n);
    }
  }

  /** Deliveries do not depend on when each number was read, as long as mail is only added. */
  lemma {:induction false} DeliveredStable(before: map<string, Object>, after: map<string, Object>, trusted: set<Party>,
                                           box: Box, p: nat, r: nat)
    requires p <= r && forall k :: k in before ==> k in after && after[k] == before[k]
    requires forall n :: p <= n < r ==> KeyOf(box, n) in before
    ensures Delivered(before, trusted, box, p, r) == Delivered(after, trusted, box, p, r)
    decreases r - p
  {
    if p < r {
      DeliveredStable(before, after, trusted, box, p, r - 1);
      assert KeyOf(box, r - 1) in before;
    }
  }

  /** What number n hands over. */
  function At(objects: map<string, Object>, trusted: set<Party>, box: Box, n: nat): seq<Delivery> {
    match Readable(objects, trusted, box, n)
    case Some(m) => [Delivery(n, m)]
    case None => []
  }

  lemma DeliveredNext(objects: map<string, Object>, trusted: set<Party>, box: Box, p: nat, r: nat)
    requires p <= r
    ensures Delivered(objects, trusted, box, p, r + 1)
         == Delivered(objects, trusted, box, p, r) + At(objects, trusted, box, r)
  {
  }

  /** The keys of numbers from n on are among ahead: what a walk up the numbers has left. */
  ghost predicate Ahead(keys: set<string>, box: Box, n: nat, ahead: set<string>) {
    forall i: nat :: i >= n && KeyOf(box, i) in keys ==> KeyOf(box, i) in ahead
  }

  lemma Onward(keys: set<string>, box: Box, n: nat, ahead: set<string>)
    requires Ahead(keys, box, n, ahead) && KeyOf(box, n) in keys
    ensures Ahead(keys, box, n + 1, ahead - {KeyOf(box, n)}) && KeyOf(box, n) in ahead
  {
    forall i: nat | i > n && KeyOf(box, i) in keys
      ensures KeyOf(box, i) in ahead - {KeyOf(box, n)}
    {
      if KeyOf(box, i) == KeyOf(box, n) {
        KeyInjective(box, i, box, n);
      }
    }
  }

  /** Who reads: it takes deliveries until it has had enough, and refuses the rest. */
  class Reader {
    var got: seq<Delivery>
    var patience: nat

    constructor (patience: nat)
      ensures got == [] && this.patience == patience
    {
      got, this.patience := [], patience;
    }

    method Take(n: nat, m: Message) returns (ok: bool)
      modifies this
      ensures ok <==> old(patience) > 0
      ensures patience == if ok then old(patience) - 1 else 0
      ensures got == if ok then old(got) + [Delivery(n, m)] else old(got)
    {
      ok := patience > 0;
      if ok {
        got := got + [Delivery(n, m)];
        patience := patience - 1;
      }
    }
  }

  /** Writes m as the first free number at or after next. */
  method Send(c: Caller, box: Box, next: nat, m: Message) returns (r: Result<nat, Fault>)
    requires c.store.Valid()
    modifies c.store`objects, c.store`version, c.store`classA, c.store`outages
    ensures c.store.Valid()
    ensures r.Ok? ==> && r.value >= next && KeyOf(box, r.value) !in old(c.store.objects)
                      && (forall n :: next <= n < r.value ==> KeyOf(box, n) in old(c.store.objects))
                      && KeyOf(box, r.value) in c.store.objects
                      && c.Wrote(old(c.store.objects), c.store.objects, KeyOf(box, r.value), Letter(m),
                                 c.store.objects[KeyOf(box, r.value)].etag)
    ensures r.Err? ==> r.error == Unavailable && c.store.objects == old(c.store.objects)
    ensures c.store.outages == if r.Err? then old(c.store.outages) + 1 else old(c.store.outages)
  {
    var n := next;
    ghost var ahead := c.store.objects.Keys;
    while true
      invariant n >= next && c.store.Valid() && c.store.objects == old(c.store.objects)
      invariant c.store.outages == old(c.store.outages)
      invariant forall i :: next <= i < n ==> KeyOf(box, i) in c.store.objects
      invariant ahead <= c.store.objects.Keys
      invariant Ahead(c.store.objects.Keys, box, n, ahead)
      decreases |ahead|
    {
      var e := c.Create(KeyOf(box, n), Letter(m));
      if e.Ok? {
        return Ok(n);
      }
      if e.error != Exists {
        return Err(e.error);
      }
      Onward(c.store.objects.Keys, box, n, ahead);
      ahead := ahead - {KeyOf(box, n)};
      n := n + 1;
    }
  }

  /** One read: the message at number n, or None for forged or malformed mail. */
  method Fetch(c: Caller, box: Box, n: nat) returns (r: Result<Option<Message>, Fault>)
    requires c.store.Valid()
    modifies c.store`classB, c.store`outages
    ensures c.store.outages == if r == Err(Unavailable) then old(c.store.outages) + 1 else old(c.store.outages)
    ensures r.Ok? ==> KeyOf(box, n) in c.store.objects && r.value == Readable(c.store.objects, c.trusted, box, n)
    ensures r.Err? ==> r.error == Unavailable || (r.error == NotFound && KeyOf(box, n) !in c.store.objects)
  {
    var obj := c.Get(KeyOf(box, n));
    if obj.Err? {
      return if obj.error == BadSignature then Ok(None) else Err(obj.error);
    }
    if obj.value.body.Letter? && obj.value.body.m.room != "" && obj.value.body.m.text != "" {
      return Ok(Some(obj.value.body.m));
    }
    return Ok(None);
  }

  /** One number of the walk, which stops if it is missing, cannot be had, or is refused. */
  method ReceiveOne(c: Caller, box: Box, n: nat, f: Reader) returns (stop: bool, failed: bool)
    requires c.store.Valid() && f as object != c.store
    modifies f, c.store`classB, c.store`outages
    ensures stop ==> f.got == old(f.got)
    ensures !stop ==> !failed && KeyOf(box, n) in c.store.objects && f.got == old(f.got) + At(c.store.objects, c.trusted, box, n)
    ensures stop && !failed ==> KeyOf(box, n) !in c.store.objects
    ensures !failed ==> c.store.outages == old(c.store.outages)
    ensures failed ==> || c.store.outages == old(c.store.outages) + 1
                       || (f.patience == 0 && Readable(c.store.objects, c.trusted, box, n).Some?)
  {
    var mail := Fetch(c, box, n);
    if mail.Err? {
      return true, mail.error != NotFound;
    }
    stop, failed := false, false;
    if mail.value.Some? {
      var ok := f.Take(n, mail.value.value);
      stop, failed := !ok, !ok;
    }
  }

  /** Hands over mail from number next on until one is missing, and returns the number to read
      next. Forged or malformed mail is skipped; it fails exactly if the bucket cannot be reached or
      the reader refuses a message, which is then not consumed. */
  method Receive(c: Caller, box: Box, next: nat, f: Reader) returns (r: nat, failed: bool)
    requires c.store.Valid() && f as object != c.store
    modifies f, c.store`classB, c.store`outages
    ensures next <= r && f.got == old(f.got) + Delivered(c.store.objects, c.trusted, box, next, r)
    ensures forall n :: next <= n < r ==> KeyOf(box, n) in c.store.objects
    ensures !failed ==> KeyOf(box, r) !in c.store.objects && c.store.outages == old(c.store.outages)
    ensures failed ==> || c.store.outages == old(c.store.outages) + 1
                       || (f.patience == 0 && Readable(c.store.objects, c.trusted, box, r).Some?)
  {
    r := next;
    ghost var objects := c.store.objects;
    ghost var ahead := objects.Keys;
    while true
      invariant c.store.objects == objects && c.store.Valid() && r >= next && ahead <= objects.Keys
      invariant c.store.outages == old(c.store.outages)
      invariant f.got == old(f.got) + Delivered(objects, c.trusted, box, next, r)
      invariant forall n :: next <= n < r ==> KeyOf(box, n) in objects
      invariant Ahead(objects.Keys, box, r, ahead)
      decreases |ahead|
    {
      var stop;
      stop, failed := ReceiveOne(c, box, r, f);
      if stop {
        return;
      }
      DeliveredNext(objects, c.trusted, box, next, r);
      assert f.got == old(f.got) + Delivered(objects, c.trusted, box, next, r + 1);
      Onward(objects.Keys, box, r, ahead);
      ahead := ahead - {KeyOf(box, r)};
      r := r + 1;
    }
  }

  // ---------------------------------------------------------------- many senders

  /** A Send loop between two creates: about to try number n, or done. */
  datatype Sender = Trying(n: nat, m: Message) | Sent(n: nat, m: Message) | GaveUp

  datatype Race = Race(slots: map<nat, Message>, senders: seq<Sender>)

  datatype Move = Start(next: nat, m: Message) | Try(k: nat) | Fail(k: nat)

  ghost predicate CanMove(s: Race, a: Move) {
    match a
    case Start(next, _) => forall i: nat :: i < next ==> i in s.slots
    case Try(k) => k < |s.senders| && s.senders[k].Trying?
    case Fail(k) => k < |s.senders| && s.senders[k].Trying?
  }

  /** One create is one move: it takes the number, or finds it taken and goes on to the next. */
  function Moved(s: Race, a: Move): Race
    requires CanMove(s, a)
  {
    match a
    case Start(next, m) => s.(senders := s.senders + [Trying(next, m)])
    case Try(k) =>
      var Trying(n, m) := s.senders[k];
      if n in s.slots then s.(senders := s.senders[k := Trying(n + 1, m)])
      else Race(s.slots[n := m], s.senders[k := Sent(n, m)])
    case Fail(k) => s.(senders := s.senders[k := GaveUp])
  }

  /** The numbers taken are exactly 0 up to how many there are. */
  ghost predicate Dense(slots: map<nat, Message>) {
    forall i: nat :: i in slots <==> i < |slots|
  }

  /** Nobody has got past the end, and every sender that finished has a number of its own, which
      still holds its message. */
  ghost predicate RaceInv(s: Race) {
    && Dense(s.slots)
    && (forall k: nat :: k < |s.senders| && s.senders[k].Trying? ==> s.senders[k].n <= |s.slots|)
    && (forall k: nat :: k < |s.senders| && s.senders[k].Sent? ==>
          s.senders[k].n in s.slots && s.slots[s.senders[k].n] == s.senders[k].m)
    && (forall k: nat, l: nat :: k < l < |s.senders| && s.senders[k].Sent? && s.senders[l].Sent? ==>
          s.senders[k].n != s.senders[l].n)
  }

  lemma RaceStep(s: Race, a: Move)
    requires RaceInv(s) && CanMove(s, a)
    ensures RaceInv(Moved(s, a))
    ensures forall n :: n in s.slots ==> n in Moved(s, a).slots && Moved(s, a).slots[n] == s.slots[n]
  {
    if a.Start? && a.next > 0 {
      assert a.next - 1 in s.slots;
    }
  }

  ghost predicate IsRace(states: seq<Race>, moves: seq<Move>) {
    && |states| == |moves| + 1
    && Dense(states[0].slots) && states[0].senders == []
    && forall i :: 0 <= i < |moves| ==> CanMove(states[i], moves[i]) && states[i + 1] == Moved(states[i], moves[i])
  }

  /** With any number of senders interleaved at single creates, the numbers taken are at every
      moment exactly 0..n-1, no number once taken is rewritten, and no two senders that finished
      share one. */
  lemma {:induction false} NumbersStayDense(states: seq<Race>, moves: seq<Move>, i: nat, j: nat)
    requires IsRace(states, moves) && i <= j < |states|
    ensures RaceInv(states[j])
    ensures forall n :: n in states[i].slots ==> n in states[j].slots && states[j].slots[n] == states[i].slots[n]
  {
    if j > 0 {
      if i < j {
        NumbersStayDense(states, moves, i, j - 1);
        RaceStep(states[j - 1], moves[j - 1]);
      } else {
        NumbersStayDense(states, moves, j - 1, j - 1);
        RaceStep(states[j - 1], moves[j - 1]);
      }
    }
  }
}
