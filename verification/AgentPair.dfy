/** Two agents that wake each other (agents/dev.go, agents/grug.go, over chatroom/chatroom.go): dev
    asks for reviews, grug answers by mention. What keeps them from going on for ever is that only a
    review mentions dev, and that grug's database allows each pull request a few of them. */
module AgentPair {
  import opened Wrappers

  const DEV: string := "dev"
  const GRUG: string := "grug"
  const MAX_REVIEWS: nat := 3
  const INBOX: nat := 100

  /** A link in a message, and the names the text of the link mentions. */
  datatype Link = Link(url: string, names: set<string>)

  /** A post: its author, the first link to a pull request in it, and the names it mentions. */
  datatype Msg = Msg(author: string, link: Option<Link>, names: set<string>)

  /** A review grug gave, and whether grug's database took it. */
  datatype Review = Review(url: string, head: string, kept: bool)

  datatype PullRequest = PullRequest(url: string, head: string)

  /** What a wake of grug meets: whether the workspace is clear, the pull request, whether grug's
      database can be read and written, the review with the names it mentions, whether it can be
      posted on the pull request, and the names that error texts and questions mention. */
  datatype World = World(clear: bool, pr: Option<PullRequest>, readable: bool, review: Option<set<string>>,
                         kept: bool, posted: bool, noise: set<string>)

  /** The heads grug reviewed, the mentions that wait, and the posts dev's turn has still to make,
      if one is running; reviews is the history. */
  datatype State = State(heads: map<string, seq<string>>, dev: seq<Msg>, grug: seq<Msg>, turn: Option<nat>, reviews: seq<Review>)

  // ---------------------------------------------------------------- what a post and a wake do

  predicate Wakes(m: Msg, name: string) {
    name in m.names && name != m.author
  }

  function Push(inbox: seq<Msg>, m: Msg, name: string): seq<Msg> {
    if Wakes(m, name) && |inbox| < INBOX then inbox + [m] else inbox
  }

  function Posted(s: State, m: Msg): State {
    s.(dev := Push(s.dev, m, DEV), grug := Push(s.grug, m, GRUG))
  }

  function HeadsOf(heads: map<string, seq<string>>, url: string): seq<string> {
    if url in heads then heads[url] else []
  }

  /** Whether grug's heads leave another review of pr. */
  predicate Open(heads: seq<string>, head: string) {
    !(heads != [] && heads[|heads| - 1] == head) && |heads| < MAX_REVIEWS
  }

  /** Whether the wake for m comes to a review. */
  predicate Reviews(s: State, m: Msg, w: World) {
    && m.link.Some? && w.clear && w.pr.Some? && w.readable
    && Open(HeadsOf(s.heads, w.pr.value.url), w.pr.value.head) && w.review.Some?
  }

  /** The names a wake without a review mentions: an answer may cite the link it was given. */
  function Cited(m: Msg, w: World): set<string> {
    if m.link.None? then {}
    else if w.clear && w.pr.None? then m.link.value.names + w.noise
    else w.noise
  }

  function Plain(names: set<string>): Msg {
    Msg(GRUG, None, names)
  }

  /** After a review: remembered if the database took it, on the pull request or not, and answered. */
  function Reviewed(s: State, m: Msg, w: World): State
    requires Reviews(s, m, w)
  {
    var pr := w.pr.value;
    var s1 := s.(heads := if w.kept then s.heads[pr.url := HeadsOf(s.heads, pr.url) + [pr.head]] else s.heads,
                 reviews := s.reviews + [Review(pr.url, pr.head, w.kept)]);
    var s2 := if w.posted then s1 else Posted(s1, Plain(w.noise));
    Posted(s2, Plain({m.author} + w.review.value))
  }

  function GrugWoken(s: State, w: World): State
    requires s.grug != []
  {
    var m, s0 := s.grug[0], s.(grug := s.grug[1..]);
    if Reviews(s0, m, w) then Reviewed(s0, m, w) else Posted(s0, Plain(Cited(m, w)))
  }

  /** grug, handling one mention at a time. */
  class Grug {
    var heads: map<string, seq<string>>
    var dev: seq<Msg>
    var grug: seq<Msg>
    ghost var turn: Option<nat>
    ghost var reviews: seq<Review>
    /** The names each of grug's posts mentions, in order. */
    ghost var said: seq<set<string>>

    constructor (heads: map<string, seq<string>>, ghost reviews: seq<Review>)
      ensures View() == State(heads, [], [], None, reviews)
    {
      this.heads, dev, grug, turn, this.reviews, said := heads, [], [], None, reviews, [];
    }

    ghost function View(): State
      reads this
    {
      State(heads, dev, grug, turn, reviews)
    }

    method Say(names: set<string>)
      modifies this`dev, this`grug, this`said
      ensures View() == Posted(old(View()), Plain(names)) && said == old(said) + [names]
      ensures grug == old(grug)
      ensures dev == if DEV in names && |old(dev)| < 100 then old(dev) + [Msg(GRUG, None, names)] else old(dev)
    {
      said := said + [names];
      var m := Plain(names);
      if Wakes(m, DEV) && |dev| < INBOX {
        dev := dev + [m];
      }
    }

    /** A review was given: it is remembered, put on the pull request and answered. */
    method Answer(m: Msg, pr: PullRequest, w: World)
      requires w.review.Some? && w.pr == Some(pr) && Reviews(View(), m, w)
      modifies this
      ensures View() == Reviewed(old(View()), m, w) && grug == old(grug) && turn == old(turn)
      ensures reviews == old(reviews) + [Review(pr.url, pr.head, w.kept)]
      ensures heads == if w.kept then old(heads)[pr.url := (if pr.url in old(heads) then old(heads)[pr.url] else []) + [pr.head]]
                       else old(heads)
      ensures said == old(said) + (if w.posted then [] else [w.noise]) + [{m.author} + w.review.value]
      ensures m.author == DEV && |dev| < 100 ==> |old(dev)| < |dev| && dev[|dev| - 1] == Msg(GRUG, None, {DEV} + w.review.value)
    {
      if w.kept {
        heads := heads[pr.url := HeadsOf(heads, pr.url) + [pr.head]];
      }
      reviews := reviews + [Review(pr.url, pr.head, w.kept)];
      if !w.posted {
        Say(w.noise);
      }
      Say({m.author} + w.review.value);
    }

    /** The oldest mention leads to a review exactly when it has a link, everything needed can be had,
        grug reviewed the pull request fewer than three times, and not at this head the last time.
        The review is then remembered if the database takes it, and the last thing posted tells who
        asked; otherwise nothing is remembered and there is one answer. */
    method Wake(w: World)
      requires grug != []
      modifies this
      ensures View() == GrugWoken(old(View()), w)
      ensures grug == old(grug)[1..] && old(said) <= said
      ensures var m, was := old(grug)[0], old(heads);
              if && m.link.Some? && w.clear && w.pr.Some? && w.readable && w.review.Some?
                 && (w.pr.value.url in was && was[w.pr.value.url] != [] ==>
                       && |was[w.pr.value.url]| < 3
                       && was[w.pr.value.url][|was[w.pr.value.url]| - 1] != w.pr.value.head)
              then
                var pr := w.pr.value;
                && reviews == old(reviews) + [Review(pr.url, pr.head, w.kept)]
                && heads == (if w.kept then was[pr.url := (if pr.url in was then was[pr.url] else []) + [pr.head]] else was)
                && |said| == |old(said)| + (if w.posted then 1 else 2)
                && said[|said| - 1] == {m.author} + w.review.value
                && (m.author == DEV && |dev| < 100 ==> |old(dev)| < |dev| && dev[|dev| - 1] == Msg(GRUG, None, {DEV} + w.review.value))
              else
                && reviews == old(reviews) && heads == was && |said| == |old(said)| + 1
                && said[|old(said)|] == (if m.link.None? then {}
                                         else if w.clear && w.pr.None? then m.link.value.names + w.noise else w.noise)
    {
      var m := grug[0];
      grug := grug[1..];
      if m.link.None? {
        Say({});
        return;
      }
      if !w.clear {
        Say(w.noise);
        return;
      }
      if w.pr.None? {
        Say(m.link.value.names + w.noise);
        return;
      }
      if !w.readable {
        Say(w.noise);
        return;
      }
      var pr := w.pr.value;
      var seen := if pr.url in heads then heads[pr.url] else [];
      if seen != [] && seen[|seen| - 1] == pr.head {
        Say(w.noise);
        return;
      }
      if |seen| >= MAX_REVIEWS {
        Say(w.noise);
        return;
      }
      if w.review.None? {
        Say(w.noise);
        return;
      }
      Answer(m, pr, w);
    }
  }

  // ---------------------------------------------------------------- the two of them

  /** dev takes a mention and will post so many times in its turn; it posts; its turn ends; grug is
      woken; the garage restarts, and what waits in memory is lost. */
  datatype Action = DevTakes(posts: nat) | DevPosts(link: Option<Link>, names: set<string>) | DevEnds | GrugWakes(w: World) | Restarts

  predicate Enabled(s: State, a: Action) {
    match a
    case DevTakes(_) => s.dev != [] && s.turn.None?
    case DevPosts(_, _) => s.turn.Some? && s.turn.value > 0
    case DevEnds => s.turn.Some?
    case GrugWakes(_) => s.grug != []
    case Restarts => s.dev != [] || s.grug != [] || s.turn.Some?
  }

  function Next(s: State, a: Action): State
    requires Enabled(s, a)
  {
    match a
    case DevTakes(posts) => s.(dev := s.dev[1..], turn := Some(posts))
    case DevPosts(link, names) => Posted(s, Msg(DEV, link, names)).(turn := Some(s.turn.value - 1))
    case DevEnds => s.(turn := None)
    case GrugWakes(w) => GrugWoken(s, w)
    case Restarts => s.(dev := [], grug := [], turn := None)
  }

  /** But for a restart, mentions wait until they are taken, one at a time and oldest first. */
  lemma MentionsWait(s: State, a: Action)
    requires Enabled(s, a) && !a.Restarts?
    ensures var t := Next(s, a);
            && (if a.DevTakes? then t.dev == s.dev[1..] && t.turn == Some(a.posts) else s.dev <= t.dev)
            && (if a.GrugWakes? then t.grug == s.grug[1..] else s.grug <= t.grug)
  {
  }

  /** What dev posts reaches grug exactly when it mentions grug and fewer than a hundred mentions
      wait; mentions are taken oldest first, and dev's own never wake it. */
  lemma DevPostReaches(s: State, link: Option<Link>, names: set<string>)
    requires s.turn.Some? && s.turn.value > 0
    ensures var t := Next(s, DevPosts(link, names));
            && t.grug == (if GRUG in names && |s.grug| < 100 then s.grug + [Msg(DEV, link, names)] else s.grug)
            && t.dev == s.dev && t.heads == s.heads && t.reviews == s.reviews && t.turn == Some(s.turn.value - 1)
  {
  }

  // ---------------------------------------------------------------- the review budget

  /** The heads of the reviews of url that grug's database took, in order. */
  function KeptHeads(reviews: seq<Review>, url: string): seq<string> {
    if reviews == [] then []
    else
      var r := reviews[|reviews| - 1];
      KeptHeads(reviews[..|reviews| - 1], url) + if r.url == url && r.kept then [r.head] else []
  }

  function ReviewsOf(reviews: seq<Review>, url: string): nat {
    if reviews == [] then 0
    else ReviewsOf(reviews[..|reviews| - 1], url) + if reviews[|reviews| - 1].url == url then 1 else 0
  }

  function LostOf(reviews: seq<Review>, url: string): nat {
    if reviews == [] then 0
    else
      var r := reviews[|reviews| - 1];
      LostOf(reviews[..|reviews| - 1], url) + if r.url == url && !r.kept then 1 else 0
  }

  predicate NoImmediateRepeat(heads: seq<string>) {
    forall i :: 0 < i < |heads| ==> heads[i] != heads[i - 1]
  }

  ghost predicate Remembered(s: State) {
    forall url :: RememberedAt(s, url)
  }

  ghost predicate RememberedAt(s: State, url: string) {
    var heads := HeadsOf(s.heads, url);
    heads == KeptHeads(s.reviews, url) && |heads| <= MAX_REVIEWS && NoImmediateRepeat(heads)
  }

  lemma ReviewRemembers(s: State, t: State, r: Review, url: string)
    requires RememberedAt(s, url) && Open(HeadsOf(s.heads, r.url), r.head)
    requires t.heads == if r.kept then s.heads[r.url := HeadsOf(s.heads, r.url) + [r.head]] else s.heads
    requires t.reviews == s.reviews + [r]
    ensures RememberedAt(t, url)
  {
    assert t.reviews[..|t.reviews| - 1] == s.reviews;
    var before := KeptHeads(s.reviews, url);
    assert KeptHeads(t.reviews, url) == if r.url == url && r.kept then before + [r.head] else before + [];
    assert before + [] == before;
  }

  lemma StepRemembers(s: State, a: Action)
    requires Remembered(s) && Enabled(s, a)
    ensures Remembered(Next(s, a))
  {
    var t := Next(s, a);
    forall url
      ensures RememberedAt(t, url)
    {
      assert RememberedAt(s, url);
      if a.GrugWakes? && Reviews(s.(grug := s.grug[1..]), s.grug[0], a.w) {
        ReviewRemembers(s, t, Review(a.w.pr.value.url, a.w.pr.value.head, a.w.kept), url);
      } else {
        assert t.heads == s.heads && t.reviews == s.reviews;
      }
    }
  }

  predicate IsRun(run: seq<State>, acts: seq<Action>) {
    && |run| == |acts| + 1
    && forall i :: 0 <= i < |acts| ==> Enabled(run[i], acts[i]) && run[i + 1] == Next(run[i], acts[i])
  }

  lemma {:induction false} RunRemembers(run: seq<State>, acts: seq<Action>, i: nat)
    requires IsRun(run, acts) && Remembered(run[0]) && i < |run|
    ensures Remembered(run[i])
  {
    if i > 0 {
      RunRemembers(run, acts, i - 1);
      StepRemembers(run[i - 1], acts[i - 1]);
    }
  }

  lemma {:induction false} CountReviews(reviews: seq<Review>, url: string)
    ensures ReviewsOf(reviews, url) == |KeptHeads(reviews, url)| + LostOf(reviews, url)
  {
    if reviews != [] {
      CountReviews(reviews[..|reviews| - 1], url);
    }
  }

  /** Over all runs and restarts, no pull request is reviewed more often than three times and once
      more for every review the database did not take; and those it took are never twice in a row
      at one head. */
  lemma ReviewBudget(run: seq<State>, acts: seq<Action>, i: nat, url: string)
    requires IsRun(run, acts) && run[0].heads == map[] && run[0].reviews == [] && i < |run|
    ensures ReviewsOf(run[i].reviews, url) <= 3 + LostOf(run[i].reviews, url)
    ensures NoImmediateRepeat(KeptHeads(run[i].reviews, url))
  {
    RunRemembers(run, acts, i);
    assert RememberedAt(run[i], url);
    CountReviews(run[i].reviews, url);
  }

  // ---------------------------------------------------------------- no chain goes on for ever

  /** The reviews the database still allows. */
  ghost function Left(s: State, prs: set<string>): set<(string, nat)> {
    set url, n: nat | url in prs && |HeadsOf(s.heads, url)| <= n < MAX_REVIEWS :: (url, n)
  }

  /** Neither agent is tricked or forgetful: the database takes each review, of a pull request among
      prs, and what any other answer cites does not mention dev. */
  predicate Quiet(s: State, a: Action, prs: set<string>)
    requires Enabled(s, a)
  {
    a.GrugWakes? ==>
      var s0, m := s.(grug := s.grug[1..]), s.grug[0];
      if Reviews(s0, m, a.w) then a.w.kept && a.w.pr.value.url in prs else DEV !in Cited(m, a.w)
  }

  predicate QuietStep(s: State, a: Action, t: State, prs: set<string>) {
    Enabled(s, a) && Quiet(s, a, prs) && t == Next(s, a)
  }

  /** One less in the lexicographic order of: the reviews left, the mentions waiting for dev, the
      posts dev's turn has to make, the mentions waiting for grug. */
  ghost predicate Below(t: State, s: State, prs: set<string>) {
    || Left(t, prs) < Left(s, prs)
    || (Left(t, prs) == Left(s, prs)
        && (|t.dev| < |s.dev|
            || (|t.dev| == |s.dev|
                && (Turn(t) < Turn(s) || (Turn(t) == Turn(s) && |t.grug| < |s.grug|)))))
  }

  function Turn(s: State): nat {
    if s.turn.Some? then s.turn.value + 1 else 0
  }

  lemma ReviewUsesUp(s: State, t: State, prs: set<string>, url: string, head: string)
    requires url in prs && |HeadsOf(s.heads, url)| < MAX_REVIEWS
    requires t.heads == s.heads[url := HeadsOf(s.heads, url) + [head]]
    ensures Left(t, prs) < Left(s, prs)
  {
    assert (url, |HeadsOf(s.heads, url)|) in Left(s, prs) && (url, |HeadsOf(s.heads, url)|) !in Left(t, prs);
  }

  lemma StepGoesDown(s: State, a: Action, t: State, prs: set<string>)
    requires QuietStep(s, a, t, prs)
    ensures Below(t, s, prs)
  {
    if a.GrugWakes? {
      var s0, m := s.(grug := s.grug[1..]), s.grug[0];
      if Reviews(s0, m, a.w) {
        ReviewUsesUp(s, t, prs, a.w.pr.value.url, a.w.pr.value.head);
      } else {
        assert t == Posted(s0, Plain(Cited(m, a.w))) && t.heads == s.heads;
      }
    }
  }

  /** Without new human posts, no chain of wakes goes on for ever: whatever the agents do, and
      however the garage restarts, somewhere there is no further step, or one where an answer without a
      review cites a mention of dev, a review is not remembered, or a pull request is new. */
  lemma EveryChainEnds(run: nat -> State, acts: nat -> Action, prs: set<string>)
    ensures exists i: nat :: !QuietStep(run(i), acts(i), run(i + 1), prs)
  {
    if forall i: nat :: QuietStep(run(i), acts(i), run(i + 1), prs) {
      NoEndlessChain(run, acts, prs, 0);
    }
  }

  lemma {:induction false} NoEndlessChain(run: nat -> State, acts: nat -> Action, prs: set<string>, i: nat)
    requires forall j: nat :: QuietStep(run(j), acts(j), run(j + 1), prs)
    ensures false
    decreases Left(run(i), prs), |run(i).dev|, Turn(run(i)), |run(i).grug|
  {
    StepGoesDown(run(i), acts(i), run(i + 1), prs);
    NoEndlessChain(run, acts, prs, i + 1);
  }

  // ---------------------------------------------------------------- and when one does

  function Four(link: Link, w: World): seq<Action> {
    [DevTakes(1), DevPosts(Some(link), {GRUG}), DevEnds, GrugWakes(w)]
  }

  /** What four steps leave: dev is woken by the last answer, posts a link for grug, and grug is woken. */
  lemma Round(m: Msg, link: Link, w: World, reviews: seq<Review>)
    returns (run: seq<State>)
    ensures IsRun(run, Four(link, w)) && run[0] == State(map[], [m], [], None, reviews)
    ensures run[4] == GrugWoken(State(map[], [], [Msg(DEV, Some(link), {GRUG})], None, reviews), w)
  {
    var s0 := State(map[], [m], [], None, reviews);
    var s1 := State(map[], [], [], Some(1), reviews);
    var s2 := State(map[], [], [Msg(DEV, Some(link), {GRUG})], Some(0), reviews);
    var s3 := s2.(turn := None);
    run := [s0, s1, s2, s3, GrugWoken(s3, w)];
    assert [m][1..] == [];
    assert [] + [Msg(DEV, Some(link), {GRUG})] == [Msg(DEV, Some(link), {GRUG})];
  }

  /** A review that the database does not take only leaves a line in the log (agents/grug.go:108):
      the agents are where they were, one review later. */
  lemma ForgettingLoops(url: string, head: string, reviews: seq<Review>)
    ensures var w := World(true, Some(PullRequest(url, head)), true, Some({}), false, true, {});
            exists run: seq<State> :: && IsRun(run, Four(Link(url, {}), w)) && run[0].reviews == reviews
                          && run[4] == run[0].(reviews := reviews + [Review(url, head, false)])
  {
    var w := World(true, Some(PullRequest(url, head)), true, Some({}), false, true, {});
    var run := Round(Plain({DEV}), Link(url, {}), w, reviews);
    assert {DEV} + {} == {DEV};
  }

  /** Nor is every other answer plain: one that cites a link whose text mentions dev
      (agents/grug.go:83) wakes it without a review, and the agents are exactly where they were. */
  lemma CitedLinkLoops(url: string)
    ensures var w := World(true, None, true, None, true, true, {});
            exists run: seq<State> :: IsRun(run, Four(Link(url, {DEV}), w)) && run[4] == run[0]
  {
    var w := World(true, None, true, None, true, true, {});
    var run := Round(Plain({DEV}), Link(url, {DEV}), w, []);
    assert {DEV} + {} == {DEV};
  }

  /** The same goes for an answer that cites an error text which mentions dev (agents/grug.go:88). */
  lemma CitedErrorLoops(url: string, pr: PullRequest)
    ensures var w := World(true, Some(pr), false, None, true, true, {DEV});
            exists run: seq<State> :: IsRun(run, Four(Link(url, {}), w)) && run[4] == run[0]
  {
    var w := World(true, Some(pr), false, None, true, true, {DEV});
    var run := Round(Plain({DEV}), Link(url, {}), w, []);
  }

  /** Exactly when a wake without a review wakes dev. */
  lemma PlainAnswerWakes(s: State, w: World)
    requires s.grug != [] && |s.dev| < INBOX && !Reviews(s.(grug := s.grug[1..]), s.grug[0], w)
    ensures GrugWoken(s, w).dev != s.dev <==> DEV in Cited(s.grug[0], w)
  {
    assert |GrugWoken(s, w).dev| == |s.dev| + if DEV in Cited(s.grug[0], w) then 1 else 0;
  }
}
