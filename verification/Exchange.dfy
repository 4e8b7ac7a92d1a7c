/**
  Journaled intents against server receipts, over a network that may delay,
  duplicate or lose requests and responses (client.py `request`,
  `replay_pending`; api.py `idempotent`, `receipt_query`). A crash loses no
  journaled state and is no event of its own; executions of one assignment
  share the journal and the receipts.
 */
module Exchange {
  import opened Wrappers
  import opened Journal

  // The offline window, the network's delivery bound and the receipts'
  // retention; the operation a content addresses; and the contents that
  // validation rejects whatever the records say.
  datatype Setup = Setup(window: nat, delay: nat, retention: nat, operation: nat -> nat, malformed: nat -> bool)

  // Configuration forces the retention above the window; delivery fits between them.
  ghost predicate WellTimed(u: Setup) { u.window + u.delay <= u.retention }

  // A request on the wire, for the journal row `gen`.
  datatype Copy = Copy(id: nat, gen: nat, content: nat, sentAt: int)
  datatype Receipt = Receipt(content: nat, value: nat, expiresAt: int)
  datatype Effect = Effect(id: nat, gen: nat, content: nat, value: nat, at: int)
  datatype Reply = Reply(id: nat, gen: nat, answer: Answer)

  // `issued` lists every row ever inserted, by its number.
  datatype World = World(now: int, journal: seq<Row>, issued: seq<Row>, copies: multiset<Copy>,
                         receipts: map<(nat, nat), Receipt>, effects: seq<Effect>, replies: set<Reply>)

  // What the server does with a request it has no receipt for, or refuses to look at.
  datatype Verdict = Accept(value: nat) | Decline(answer: Answer) | Deny(answer: Answer)

  datatype Event =
    | EvElapse(seconds: nat)
    | EvRequest(attempt: Attempt, tries: nat)
    | EvDeliver(copy: Copy, verdict: Verdict)
    | EvLose(copy: Copy)
    | EvReceive(reply: Reply)
    | EvUnanswered(id: nat)
    | EvResolve(id: nat)
    | EvPrune

  function Place(u: Setup, content: nat, id: nat): (nat, nat) { (u.operation(content), id) }

  predicate Rejection(answer: Answer) { !answer.Success? }

  // `idempotent`: the receipt is written in the transaction of its effect. A
  // denial for want of live authority comes before the receipt is read, and is
  // never one of the rejections known to have no effect.
  function Deliver(u: Setup, w: World, c: Copy, verdict: Verdict): World {
    var at := Place(u, c.content, c.id);
    if u.malformed(c.content) then w.(replies := w.replies + {Reply(c.id, c.gen, NoEffect)})
    else if verdict.Deny? && (verdict.answer.TryLater? || verdict.answer.Refusal?) then
      w.(replies := w.replies + {Reply(c.id, c.gen, verdict.answer)})
    else if at in w.receipts && w.receipts[at].content != c.content then w.(replies := w.replies + {Reply(c.id, c.gen, Refusal)})
    else if at in w.receipts then w.(replies := w.replies + {Reply(c.id, c.gen, Success(w.receipts[at].value))})
    else if verdict.Accept? then
      w.(receipts := w.receipts[at := Receipt(c.content, verdict.value, w.now + u.retention)],
         effects := w.effects + [Effect(c.id, c.gen, c.content, verdict.value, w.now)],
         replies := w.replies + {Reply(c.id, c.gen, Success(verdict.value))})
    else if Rejection(verdict.answer) then w.(replies := w.replies + {Reply(c.id, c.gen, verdict.answer)})
    else w
  }

  ghost function Apply(u: Setup, w: World, ev: Event): World {
    match ev
    case EvElapse(d) => w.(now := w.now + d)
    // One request transmits up to three times before it gives up.
    case EvRequest(a, tries) =>
      var begun := Begin(w.journal, a, |w.issued|, w.now, u.window);
      if begun.Refused? || tries > 3 then w
      else
        var added := begun.gen == |w.issued|;
        w.(journal := begun.journal,
           issued := if added then w.issued + [Row(begun.id, begun.gen, a.content, a.execution, Pending, w.now, 0, None)] else w.issued,
           copies := w.copies[Copy(begun.id, begun.gen, a.content, w.now) :=
                              w.copies[Copy(begun.id, begun.gen, a.content, w.now)] + tries])
    case EvDeliver(c, verdict) =>
      if c in w.copies && w.now <= c.sentAt + u.delay
      then Deliver(u, w, c, verdict).(copies := w.copies - multiset{c}) else w
    case EvLose(c) => w.(copies := w.copies - multiset{c})
    case EvReceive(r) => if r in w.replies then w.(journal := Settle(w.journal, r.id, r.answer, w.now)) else w
    case EvUnanswered(id) => w.(journal := Defer(w.journal, id, w.now))
    case EvResolve(id) => w.(journal := Resolve(w.journal, id))
    case EvPrune => w.(receipts := map k | k in w.receipts && w.receipts[k].expiresAt >= w.now :: w.receipts[k])
  }

  ghost function After(u: Setup, w: World, events: seq<Event>): World {
    if events == [] then w else Apply(u, After(u, w, events[..|events| - 1]), events[|events| - 1])
  }

  ghost predicate Initial(w: World) {
    w.journal == [] && w.issued == [] && w.copies == multiset{} && w.receipts == map[] && w.effects == [] && w.replies == {}
  }

  // ---- Invariants ----

  ghost predicate Names(w: World, gen: nat, id: nat, content: nat) {
    gen < |w.issued| && w.issued[gen].id == id && w.issued[gen].content == content
  }

  ghost predicate RowsOk(w: World) {
    && (forall g | 0 <= g < |w.issued| :: w.issued[g].gen == g && w.issued[g].createdAt <= w.now)
    && (forall y | y in w.journal :: y.gen < |w.issued| && SameIntent(w.issued[y.gen], y))
    && UniqueIds(w.journal)
  }

  // A copy was sent inside the window of its row.
  ghost predicate CopyOk(u: Setup, w: World, c: Copy) {
    && Names(w, c.gen, c.id, c.content)
    && w.issued[c.gen].createdAt <= c.sentAt <= w.now && c.sentAt <= w.issued[c.gen].createdAt + u.window
  }

  ghost predicate EffectOk(u: Setup, w: World, f: Effect) {
    && Names(w, f.gen, f.id, f.content) && !u.malformed(f.content) && f.at <= w.now
    && w.issued[f.gen].createdAt <= f.at <= w.issued[f.gen].createdAt + u.window + u.delay
  }

  // The receipt of an effect stands until its retention is over.
  ghost predicate Covered(u: Setup, w: World, f: Effect) {
    var at := Place(u, f.content, f.id);
    (at in w.receipts && w.receipts[at] == Receipt(f.content, f.value, f.at + u.retention)) || w.now > f.at + u.retention
  }

  ghost predicate Backed(u: Setup, w: World, at: (nat, nat)) {
    at in w.receipts ==>
      exists i | 0 <= i < |w.effects| ::
        var f := w.effects[i];
        Place(u, f.content, f.id) == at && w.receipts[at] == Receipt(f.content, f.value, f.at + u.retention)
  }

  // Two effects under one key and operation are a whole retention apart.
  ghost predicate Spaced(u: Setup, w: World) {
    forall i, j | 0 <= i < j < |w.effects| ::
      Place(u, w.effects[i].content, w.effects[i].id) == Place(u, w.effects[j].content, w.effects[j].id) ==>
      w.effects[j].at > w.effects[i].at + u.retention
  }

  // A success reports the value of an effect of that key and content.
  ghost predicate Honest(w: World, r: Reply) {
    r.answer.Success? ==>
      exists i | 0 <= i < |w.effects| ::
        w.effects[i].id == r.id && w.effects[i].value == r.answer.value
        && r.gen < |w.issued| && w.effects[i].content == w.issued[r.gen].content
  }

  ghost predicate Inv(u: Setup, w: World) {
    && RowsOk(w)
    && (forall c | c in w.copies :: CopyOk(u, w, c))
    && (forall i | 0 <= i < |w.effects| :: EffectOk(u, w, w.effects[i]) && Covered(u, w, w.effects[i]))
    && (forall at | at in w.receipts :: Backed(u, w, at))
    && Spaced(u, w)
    && (forall r | r in w.replies :: Honest(w, r))
  }

  // ---- Client steps ----

  // A step that touches neither effects, receipts nor replies.
  lemma FrameKeeps(u: Setup, w: World, t: World)
    requires Inv(u, w) && RowsOk(t) && w.now <= t.now
    requires |w.issued| <= |t.issued| && t.issued[..|w.issued|] == w.issued
    requires t.effects == w.effects && t.receipts == w.receipts && t.replies == w.replies
    requires forall c | c in t.copies :: c in w.copies || CopyOk(u, t, c)
    ensures Inv(u, t)
  {
    assert forall g | 0 <= g < |w.issued| :: t.issued[g] == w.issued[g];
    forall c | c in t.copies ensures CopyOk(u, t, c) { if c in w.copies { assert CopyOk(u, w, c); } }
    forall i | 0 <= i < |t.effects| ensures EffectOk(u, t, t.effects[i]) && Covered(u, t, t.effects[i]) {
      assert EffectOk(u, w, w.effects[i]) && Covered(u, w, w.effects[i]);
    }
    forall at | at in t.receipts ensures Backed(u, t, at) { assert Backed(u, w, at); }
    forall r | r in t.replies ensures Honest(t, r) { assert Honest(w, r); }
  }

  lemma JournalKeeps(u: Setup, w: World, journal: seq<Row>)
    requires Inv(u, w) && Descends(w.journal, journal) && UniqueIds(journal)
    ensures Inv(u, w.(journal := journal))
  {
    var t := w.(journal := journal);
    forall y | y in journal ensures y.gen < |w.issued| && SameIntent(w.issued[y.gen], y) {
      var x :| x in w.journal && SameIntent(x, y);
    }
    FrameKeeps(u, w, t);
  }

  lemma RequestKeeps(u: Setup, w: World, a: Attempt, tries: nat)
    requires Inv(u, w)
    ensures Inv(u, Apply(u, w, EvRequest(a, tries)))
  {
    hide Begin; hide Covered; hide Backed; hide Spaced; hide Honest; hide EffectOk;
    var begun := Begin(w.journal, a, |w.issued|, w.now, u.window);
    if begun.Sending? && tries <= 3 {
      BeginKeeps(w.journal, a, |w.issued|, w.now, u.window);
      var t := Apply(u, w, EvRequest(a, tries));
      var row := Row(begun.id, begun.gen, a.content, a.execution, Pending, w.now, 0, None);
      if begun.gen == |w.issued| {
        assert forall x | x in w.journal :: x.gen < |w.issued|;
        NewRowOk(w, t, begun.journal, row);
      } else {
        forall y | y in t.journal ensures y.gen < |t.issued| && SameIntent(t.issued[y.gen], y) {
          var x :| x in w.journal && SameIntent(x, y);
        }
      }
      assert CopyOk(u, t, Copy(begun.id, begun.gen, a.content, w.now));
      FrameKeeps(u, w, t);
    }
  }

  lemma NewRowOk(w: World, t: World, journal: seq<Row>, row: Row)
    requires RowsOk(w) && row.gen == |w.issued| && row.createdAt == w.now == t.now && UniqueIds(journal)
    requires exists k :: Descends(w.journal, k) && journal == k + [row]
    requires t.journal == journal && t.issued == w.issued + [row]
    ensures RowsOk(t)
  {
    var k :| Descends(w.journal, k) && journal == k + [row];
    forall y | y in journal ensures y.gen < |t.issued| && SameIntent(t.issued[y.gen], y) {
      if y != row {
        assert y in k;
        var x :| x in w.journal && SameIntent(x, y);
        assert t.issued[x.gen] == w.issued[x.gen];
      }
    }
  }

  // ---- Server steps ----

  lemma ReplyKeeps(u: Setup, w: World, r: Reply)
    requires Inv(u, w) && Honest(w, r)
    ensures Inv(u, w.(replies := w.replies + {r}))
  {
    hide CopyOk; hide RowsOk;
    var t := w.(replies := w.replies + {r});
    forall c | c in t.copies ensures CopyOk(u, t, c) { CopySame(u, w, t, c); }
    RowsSame(w, t);
    forall i | 0 <= i < |t.effects| ensures EffectOk(u, t, t.effects[i]) && Covered(u, t, t.effects[i]) {
      assert EffectOk(u, w, w.effects[i]) && Covered(u, w, w.effects[i]);
    }
    forall at | at in t.receipts ensures Backed(u, t, at) { assert Backed(u, w, at); }
    forall q | q in t.replies ensures Honest(t, q) { assert Honest(w, q); }
  }

  lemma CopySame(u: Setup, w: World, t: World, c: Copy)
    requires CopyOk(u, w, c) && t.issued == w.issued && t.now == w.now
    ensures CopyOk(u, t, c)
  {
  }

  lemma RowsSame(w: World, t: World)
    requires RowsOk(w) && t.issued == w.issued && t.now == w.now && t.journal == w.journal
    ensures RowsOk(t)
  {
  }

  // The receipt of an earlier effect of the same row cannot be gone yet.
  lemma AcceptSpaced(u: Setup, w: World, c: Copy, i: nat)
    requires WellTimed(u) && Inv(u, w) && c in w.copies && w.now <= c.sentAt + u.delay
    requires Place(u, c.content, c.id) !in w.receipts && i < |w.effects|
    requires Place(u, w.effects[i].content, w.effects[i].id) == Place(u, c.content, c.id)
    ensures w.now > w.effects[i].at + u.retention
  {
    assert Covered(u, w, w.effects[i]);
  }

  lemma AcceptKeeps(u: Setup, w: World, c: Copy, value: nat)
    requires WellTimed(u) && Inv(u, w) && c in w.copies && w.now <= c.sentAt + u.delay
    requires !u.malformed(c.content) && Place(u, c.content, c.id) !in w.receipts
    ensures Inv(u, Deliver(u, w, c, Accept(value)))
  {
    hide CopyOk; hide RowsOk; hide EffectOk; hide Covered; hide Backed; hide Honest; hide Spaced; hide Place;
    var t := Deliver(u, w, c, Accept(value));
    var n := |w.effects|;
    assert CopyOk(u, w, c);
    NewEffectOk(u, w, t, c, value);
    RowsSame(w, t);
    forall k | k in t.copies ensures CopyOk(u, t, k) { CopySame(u, w, t, k); }
    forall i | 0 <= i < n ensures EffectOk(u, t, t.effects[i]) && Covered(u, t, t.effects[i]) {
      EffectSame(u, w, t, c, value, i);
    }
    forall k | k in t.receipts ensures Backed(u, t, k) {
      if k == Place(u, c.content, c.id) { NewBacked(u, w, t, c, value); } else { BackedMore(u, w, t, k); }
    }
    SpacedMore(u, w, t, c, value);
    forall r | r in t.replies ensures Honest(t, r) {
      if r in w.replies { HonestMore(w, t, r); } else { NewHonest(u, w, t, c, value); }
    }
  }

  lemma EffectSame(u: Setup, w: World, t: World, c: Copy, value: nat, i: nat)
    requires i < |w.effects| && EffectOk(u, w, w.effects[i]) && Covered(u, w, w.effects[i])
    requires !u.malformed(c.content) && Place(u, c.content, c.id) !in w.receipts && t == Deliver(u, w, c, Accept(value))
    ensures t.effects[i] == w.effects[i] && EffectOk(u, t, t.effects[i]) && Covered(u, t, t.effects[i])
  {
  }

  lemma NewBacked(u: Setup, w: World, t: World, c: Copy, value: nat)
    requires !u.malformed(c.content) && Place(u, c.content, c.id) !in w.receipts && t == Deliver(u, w, c, Accept(value))
    ensures Backed(u, t, Place(u, c.content, c.id))
  {
    assert t.effects[|w.effects|] == Effect(c.id, c.gen, c.content, value, w.now);
  }

  lemma SpacedMore(u: Setup, w: World, t: World, c: Copy, value: nat)
    requires WellTimed(u) && Inv(u, w) && c in w.copies && w.now <= c.sentAt + u.delay
    requires !u.malformed(c.content) && Place(u, c.content, c.id) !in w.receipts && t == Deliver(u, w, c, Accept(value))
    ensures Spaced(u, t)
  {
    hide CopyOk; hide RowsOk; hide EffectOk; hide Covered; hide Backed; hide Honest; hide Place;
    var n := |w.effects|;
    forall i, j | 0 <= i < j < |t.effects| && Place(u, t.effects[i].content, t.effects[i].id) == Place(u, t.effects[j].content, t.effects[j].id)
      ensures t.effects[j].at > t.effects[i].at + u.retention
    {
      assert t.effects[i] == w.effects[i];
      if j == n { AcceptSpaced(u, w, c, i); }
    }
  }

  lemma NewEffectOk(u: Setup, w: World, t: World, c: Copy, value: nat)
    requires CopyOk(u, w, c) && w.now <= c.sentAt + u.delay && !u.malformed(c.content) && Place(u, c.content, c.id) !in w.receipts
    requires t == Deliver(u, w, c, Accept(value))
    ensures |t.effects| == |w.effects| + 1
    ensures var f := t.effects[|w.effects|];
            f == Effect(c.id, c.gen, c.content, value, w.now) && EffectOk(u, t, f) && Covered(u, t, f)
  {
  }

  lemma BackedMore(u: Setup, w: World, t: World, k: (nat, nat))
    requires Backed(u, w, k) && k in w.receipts && k in t.receipts && t.receipts[k] == w.receipts[k]
    requires |w.effects| <= |t.effects| && t.effects[..|w.effects|] == w.effects
    ensures Backed(u, t, k)
  {
    var i :| 0 <= i < |w.effects| && Place(u, w.effects[i].content, w.effects[i].id) == k
             && w.receipts[k] == Receipt(w.effects[i].content, w.effects[i].value, w.effects[i].at + u.retention);
    assert t.effects[i] == w.effects[i];
  }

  lemma HonestMore(w: World, t: World, r: Reply)
    requires Honest(w, r) && t.issued == w.issued && |w.effects| <= |t.effects| && t.effects[..|w.effects|] == w.effects
    ensures Honest(t, r)
  {
    if r.answer.Success? {
      var i :| 0 <= i < |w.effects| && w.effects[i].id == r.id && w.effects[i].value == r.answer.value
               && r.gen < |w.issued| && w.effects[i].content == w.issued[r.gen].content;
      assert t.effects[i] == w.effects[i];
    }
  }

  lemma NewHonest(u: Setup, w: World, t: World, c: Copy, value: nat)
    requires CopyOk(u, w, c) && t.issued == w.issued && |t.effects| == |w.effects| + 1
    requires t.effects[|w.effects|] == Effect(c.id, c.gen, c.content, value, w.now)
    ensures Honest(t, Reply(c.id, c.gen, Success(value)))
  {
  }

  // A replay answers with the receipt's value, which is the effect's.
  lemma ReplayHonest(u: Setup, w: World, c: Copy)
    requires Inv(u, w) && CopyOk(u, w, c)
    requires var at := Place(u, c.content, c.id); at in w.receipts && w.receipts[at].content == c.content
    ensures Honest(w, Reply(c.id, c.gen, Success(w.receipts[Place(u, c.content, c.id)].value)))
  {
    var at := Place(u, c.content, c.id);
    assert Backed(u, w, at);
    var i :| 0 <= i < |w.effects| && Place(u, w.effects[i].content, w.effects[i].id) == at
             && w.receipts[at] == Receipt(w.effects[i].content, w.effects[i].value, w.effects[i].at + u.retention);
  }

  lemma DeliverKeeps(u: Setup, w: World, c: Copy, verdict: Verdict)
    requires WellTimed(u) && Inv(u, w) && c in w.copies && w.now <= c.sentAt + u.delay
    ensures Inv(u, Deliver(u, w, c, verdict))
  {
    hide Inv; hide WellTimed; hide Place;
    assert CopyOk(u, w, c) by { InvCopy(u, w, c); }
    var at := Place(u, c.content, c.id);
    if u.malformed(c.content) { ReplyKeeps(u, w, Reply(c.id, c.gen, NoEffect)); }
    else if verdict.Deny? && (verdict.answer.TryLater? || verdict.answer.Refusal?) { ReplyKeeps(u, w, Reply(c.id, c.gen, verdict.answer)); }
    else if at in w.receipts && w.receipts[at].content != c.content { ReplyKeeps(u, w, Reply(c.id, c.gen, Refusal)); }
    else if at in w.receipts { ReplayHonest(u, w, c); ReplyKeeps(u, w, Reply(c.id, c.gen, Success(w.receipts[at].value))); }
    else if verdict.Accept? { AcceptKeeps(u, w, c, verdict.value); }
    else if Rejection(verdict.answer) { ReplyKeeps(u, w, Reply(c.id, c.gen, verdict.answer)); }
  }

  lemma InvCopy(u: Setup, w: World, c: Copy)
    requires Inv(u, w) && c in w.copies
    ensures CopyOk(u, w, c)
  {
  }

  lemma PruneKeeps(u: Setup, w: World)
    requires Inv(u, w)
    ensures Inv(u, Apply(u, w, EvPrune))
  {
    hide CopyOk; hide RowsOk;
    var t := Apply(u, w, EvPrune);
    RowsSame(w, t);
    forall c | c in t.copies ensures CopyOk(u, t, c) { CopySame(u, w, t, c); }
    forall i | 0 <= i < |t.effects| ensures EffectOk(u, t, t.effects[i]) && Covered(u, t, t.effects[i]) {
      assert EffectOk(u, w, w.effects[i]) && Covered(u, w, w.effects[i]);
    }
    forall at | at in t.receipts ensures Backed(u, t, at) { assert Backed(u, w, at); }
    forall r | r in t.replies ensures Honest(t, r) { assert Honest(w, r); }
  }

  lemma StepKeeps(u: Setup, w: World, ev: Event)
    requires WellTimed(u) && Inv(u, w)
    ensures Inv(u, Apply(u, w, ev))
  {
    hide Inv; hide Begin; hide Settle; hide Defer; hide Resolve; hide Deliver; hide Descends; hide UniqueIds; hide CopyOk;
    assert UniqueIds(w.journal) by { InvUnique(u, w); }
    match ev {
      case EvElapse(d) => ElapseKeeps(u, w, d);
      case EvRequest(a, tries) => RequestKeeps(u, w, a, tries);
      case EvDeliver(c, verdict) =>
        if c in w.copies && w.now <= c.sentAt + u.delay {
          DeliverKeeps(u, w, c, verdict);
          DeliverCopies(u, w, c, verdict);
          LoseKeeps(u, Deliver(u, w, c, verdict), c);
        }
      case EvLose(c) => LoseKeeps(u, w, c);
      case EvReceive(r) => SettleKeeps(w.journal, r.id, r.answer, w.now); JournalKeeps(u, w, Settle(w.journal, r.id, r.answer, w.now));
      case EvUnanswered(id) => DeferKeeps(w.journal, id, w.now); JournalKeeps(u, w, Defer(w.journal, id, w.now));
      case EvResolve(id) => ResolveKeeps(w.journal, id); JournalKeeps(u, w, Resolve(w.journal, id));
      case EvPrune => PruneKeeps(u, w);
    }
  }

  lemma DeliverCopies(u: Setup, w: World, c: Copy, verdict: Verdict)
    ensures Deliver(u, w, c, verdict).copies == w.copies
  {
  }

  lemma InvUnique(u: Setup, w: World)
    requires Inv(u, w)
    ensures UniqueIds(w.journal)
  {
  }

  lemma ElapseKeeps(u: Setup, w: World, d: nat)
    requires Inv(u, w)
    ensures Inv(u, w.(now := w.now + d))
  {
    var t := w.(now := w.now + d);
    forall c | c in t.copies ensures CopyOk(u, t, c) { assert CopyOk(u, w, c); }
    FrameKeeps(u, w, t);
  }

  lemma LoseKeeps(u: Setup, w: World, c: Copy)
    requires Inv(u, w)
    ensures Inv(u, w.(copies := w.copies - multiset{c}))
  {
    RowsSame(w, w.(copies := w.copies - multiset{c}));
    FrameKeeps(u, w, w.(copies := w.copies - multiset{c}));
  }

  lemma {:induction false} AlwaysInv(u: Setup, w: World, events: seq<Event>)
    requires WellTimed(u) && Initial(w)
    ensures Inv(u, After(u, w, events))
  {
    hide Apply;
    if events != [] {
      AlwaysInv(u, w, events[..|events| - 1]);
      StepKeeps(u, After(u, w, events[..|events| - 1]), events[|events| - 1]);
    }
  }

  // ---- The guarantees ----

  /** Over every run each journaled intent takes effect at most once. */
  lemma AtMostOnce(u: Setup, start: World, events: seq<Event>, i: nat, j: nat)
    requires WellTimed(u) && Initial(start)
    requires var w := After(u, start, events); i < |w.effects| && j < |w.effects| && w.effects[i].gen == w.effects[j].gen
    ensures i == j
  {
    hide After;
    AlwaysInv(u, start, events);
    var w := After(u, start, events);
    assert EffectOk(u, w, w.effects[i]) && EffectOk(u, w, w.effects[j]);
  }

  /** A success reports the value its key and content took effect with; a replay repeats the original response. */
  lemma SuccessIsOriginal(u: Setup, start: World, events: seq<Event>, r: Reply)
    requires WellTimed(u) && Initial(start) && r in After(u, start, events).replies && r.answer.Success?
    ensures var w := After(u, start, events);
            exists i | 0 <= i < |w.effects| ::
              w.effects[i].id == r.id && w.effects[i].value == r.answer.value
              && r.gen < |w.issued| && w.effects[i].content == w.issued[r.gen].content
  {
    hide After;
    AlwaysInv(u, start, events);
    assert Honest(After(u, start, events), r);
  }

  /**
    Over every run, two effects of one key on one operation are more than a
    whole retention apart, whatever their contents: while a receipt can stand,
    its key takes effect once.
   */
  lemma KeysTakeEffectOnce(u: Setup, start: World, events: seq<Event>, i: nat, j: nat)
    requires WellTimed(u) && Initial(start)
    requires var w := After(u, start, events);
             && i < j < |w.effects| && w.effects[i].id == w.effects[j].id
             && u.operation(w.effects[i].content) == u.operation(w.effects[j].content)
    ensures After(u, start, events).effects[j].at > After(u, start, events).effects[i].at + u.retention
  {
    hide After;
    AlwaysInv(u, start, events);
  }

  // The receipt of an effect is still there to be found.
  ghost predicate Standing(u: Setup, w: World, f: Effect) {
    var at := Place(u, f.content, f.id);
    at in w.receipts && w.receipts[at] == Receipt(f.content, f.value, f.at + u.retention)
  }

  ghost predicate CanTakeEffect(u: Setup, w: World, c: Copy) {
    exists verdict :: |Apply(u, w, EvDeliver(c, verdict)).effects| > |w.effects|
  }

  lemma AcceptedDelivery(u: Setup, w: World, c: Copy)
    requires c in w.copies && w.now <= c.sentAt + u.delay && !u.malformed(c.content) && Place(u, c.content, c.id) !in w.receipts
    ensures CanTakeEffect(u, w, c)
  {
    assert |Apply(u, w, EvDeliver(c, Accept(0))).effects| > |w.effects|;
  }

  lemma ReceiptBlocks(u: Setup, w: World, c: Copy)
    requires Place(u, c.content, c.id) in w.receipts
    ensures !CanTakeEffect(u, w, c)
  {
  }

  /**
    Exactly when a copy that arrives in time can take effect although its key
    already did, with the same or with other content: every earlier effect of
    the key was of another operation, or its receipt is gone, which takes more
    than a retention.
   */
  lemma ReusedKeyTakesEffect(u: Setup, start: World, events: seq<Event>, c: Copy)
    requires WellTimed(u) && Initial(start)
    requires var w := After(u, start, events); c in w.copies && w.now <= c.sentAt + u.delay && !u.malformed(c.content)
    ensures var w := After(u, start, events);
            CanTakeEffect(u, w, c) <==>
              forall f | f in w.effects && f.id == c.id ::
                u.operation(f.content) != u.operation(c.content) || !Standing(u, w, f)
    ensures var w := After(u, start, events);
            forall f | f in w.effects && !Standing(u, w, f) :: w.now > f.at + u.retention
  {
    hide After; hide Apply; hide CanTakeEffect; hide RowsOk; hide CopyOk; hide Honest; hide Spaced;
    AlwaysInv(u, start, events);
    var w := After(u, start, events);
    var at := Place(u, c.content, c.id);
    if at in w.receipts {
      ReceiptBlocks(u, w, c);
      assert Backed(u, w, at);
      var i :| 0 <= i < |w.effects| && Place(u, w.effects[i].content, w.effects[i].id) == at
               && w.receipts[at] == Receipt(w.effects[i].content, w.effects[i].value, w.effects[i].at + u.retention);
      assert w.effects[i] in w.effects && Standing(u, w, w.effects[i]);
    } else {
      AcceptedDelivery(u, w, c);
    }
    forall f | f in w.effects && !Standing(u, w, f) ensures w.now > f.at + u.retention {
      var i :| 0 <= i < |w.effects| && w.effects[i] == f;
      assert Covered(u, w, w.effects[i]);
    }
  }

  /** A key in the journal is never sent with other content. */
  lemma KeysKeepTheirContent(u: Setup, start: World, events: seq<Event>, c: Copy)
    requires WellTimed(u) && Initial(start) && c in After(u, start, events).copies
    ensures var w := After(u, start, events);
            c.gen < |w.issued| && w.issued[c.gen].id == c.id && w.issued[c.gen].content == c.content
  {
    hide After;
    AlwaysInv(u, start, events);
    assert CopyOk(u, After(u, start, events), c);
  }

  /** No event deletes an unresolved intent: it stays in the journal, resolved at most. */
  lemma UnresolvedStay(u: Setup, w: World, ev: Event, x: Row)
    requires Inv(u, w) && x in w.journal && Unresolved(x)
    requires ev.EvReceive? && ev.reply.id == x.id ==> ev.reply.answer.TryLater? || ev.reply.answer.Refusal?
    ensures exists y | y in Apply(u, w, ev).journal :: SameIntent(x, y)
  {
    hide Begin; hide Settle; hide Defer; hide Resolve; hide Deliver; hide Descends;
    assert SameIntent(x, x);
    match ev {
      case EvRequest(a, tries) =>
        if Begin(w.journal, a, |w.issued|, w.now, u.window).Sending? { BeginKeeps(w.journal, a, |w.issued|, w.now, u.window); }
      case EvReceive(r) => SettleKeeps(w.journal, r.id, r.answer, w.now);
      case EvUnanswered(id) => DeferKeeps(w.journal, id, w.now);
      case EvResolve(id) => ResolveKeeps(w.journal, id);
      case EvDeliver(c, v) => DeliverJournal(u, w, c, v);
      case _ =>
    }
  }

  lemma DeliverJournal(u: Setup, w: World, c: Copy, verdict: Verdict)
    ensures Deliver(u, w, c, verdict).journal == w.journal
  {
  }

  // ---- Intents marked invalid ----

  ghost predicate Effective(w: World, gen: nat) { exists i | 0 <= i < |w.effects| :: w.effects[i].gen == gen }

  /** Content that validation rejects never takes effect, however often it is sent. */
  lemma MalformedHasNoEffect(u: Setup, start: World, events: seq<Event>, gen: nat)
    requires WellTimed(u) && Initial(start)
    requires gen < |After(u, start, events).issued| && u.malformed(After(u, start, events).issued[gen].content)
    ensures !Effective(After(u, start, events), gen)
  {
    hide After;
    AlwaysInv(u, start, events);
    var w := After(u, start, events);
    forall i | 0 <= i < |w.effects| ensures w.effects[i].gen != gen { assert EffectOk(u, w, w.effects[i]); }
  }

  // The server answers "no effect" to this copy.
  ghost predicate Declined(u: Setup, w: World, c: Copy, verdict: Verdict) {
    && c in w.copies && w.now <= c.sentAt + u.delay
    && (u.malformed(c.content) || (verdict == Decline(NoEffect) && Place(u, c.content, c.id) !in w.receipts))
  }

  /** When the server declines an intent as having no effect, it has had none. */
  lemma DeclinedHadNoEffect(u: Setup, w: World, c: Copy, verdict: Verdict)
    requires WellTimed(u) && Inv(u, w) && Declined(u, w, c, verdict)
    ensures !Effective(w, c.gen)
    ensures Apply(u, w, EvDeliver(c, verdict)).effects == w.effects
  {
    assert CopyOk(u, w, c);
    forall i | 0 <= i < |w.effects| ensures w.effects[i].gen != c.gen {
      assert EffectOk(u, w, w.effects[i]) && Covered(u, w, w.effects[i]);
    }
  }

  // The run does not send the row again.
  ghost predicate Silent(u: Setup, w: World, more: seq<Event>, gen: nat) {
    more == [] ||
    var before := more[..|more| - 1];
    var t, ev := After(u, w, before), more[|more| - 1];
    && Silent(u, w, before, gen)
    && (ev.EvRequest? ==>
          var begun := Begin(t.journal, ev.attempt, |t.issued|, t.now, u.window);
          begun.Sending? ==> begun.gen != gen)
  }

  // A copy of the row that can still arrive.
  ghost predicate Outstanding(u: Setup, w: World, gen: nat) {
    exists c :: c in w.copies && c.gen == gen && w.now <= c.sentAt + u.delay
  }

  lemma QuietStep(u: Setup, w: World, ev: Event, gen: nat)
    requires !Effective(w, gen) && !Outstanding(u, w, gen)
    requires ev.EvRequest? ==>
               var begun := Begin(w.journal, ev.attempt, |w.issued|, w.now, u.window);
               begun.Sending? ==> begun.gen != gen
    ensures !Effective(Apply(u, w, ev), gen) && !Outstanding(u, Apply(u, w, ev), gen)
  {
    hide Begin; hide Settle; hide Defer; hide Resolve;
    var t := Apply(u, w, ev);
    forall c | c in t.copies && c.gen == gen ensures t.now > c.sentAt + u.delay { assert c in w.copies; }
    forall i | 0 <= i < |t.effects| ensures t.effects[i].gen != gen {
      if i < |w.effects| { assert t.effects[i] == w.effects[i]; }
    }
  }

  lemma {:induction false} QuietRun(u: Setup, w: World, more: seq<Event>, gen: nat)
    requires !Effective(w, gen) && !Outstanding(u, w, gen) && Silent(u, w, more, gen)
    ensures !Effective(After(u, w, more), gen) && !Outstanding(u, After(u, w, more), gen)
  {
    hide Apply; hide Effective; hide Outstanding; hide Begin;
    if more != [] {
      QuietRun(u, w, more[..|more| - 1], gen);
      QuietStep(u, After(u, w, more[..|more| - 1]), more[|more| - 1], gen);
    }
  }

  ghost predicate MayTakeEffect(u: Setup, w: World, gen: nat) {
    exists more :: Silent(u, w, more, gen) && Effective(After(u, w, more), gen)
  }

  lemma LateDelivery(u: Setup, w: World, c: Copy)
    requires c in w.copies && w.now <= c.sentAt + u.delay && !u.malformed(c.content) && Place(u, c.content, c.id) !in w.receipts
    ensures MayTakeEffect(u, w, c.gen)
  {
    var ev := EvDeliver(c, Accept(0));
    var t := Apply(u, w, ev);
    assert t.effects[|w.effects|].gen == c.gen;
    assert [ev][..0] == [] && After(u, w, []) == w && After(u, w, [ev]) == t;
    assert Silent(u, w, [], c.gen);
    assert Silent(u, w, [ev], c.gen);
  }

  /**
    An intent that the server just declined, and that nobody sends again, can
    still take effect if and only if another copy of it is on the wire: the
    decline of one copy says nothing about an earlier one that arrives later.
   */
  lemma DeclinedStaysWithoutEffect(u: Setup, w: World, c: Copy)
    requires WellTimed(u) && Inv(u, w) && Declined(u, w, c, Decline(NoEffect)) && !u.malformed(c.content)
    ensures var t := Apply(u, w, EvDeliver(c, Decline(NoEffect)));
            MayTakeEffect(u, t, c.gen) <==> Outstanding(u, t, c.gen)
  {
    hide After; hide Silent;
    var t := Apply(u, w, EvDeliver(c, Decline(NoEffect)));
    DeclinedHadNoEffect(u, w, c, Decline(NoEffect));
    if Outstanding(u, t, c.gen) {
      var d :| d in t.copies && d.gen == c.gen && t.now <= d.sentAt + u.delay;
      assert CopyOk(u, w, c) && CopyOk(u, w, d);
      LateDelivery(u, t, d);
    } else {
      forall more | Silent(u, t, more, c.gen) ensures !Effective(After(u, t, more), c.gen) { QuietRun(u, t, more, c.gen); }
    }
  }

  // ---- A run in which an invalid intent takes effect ----

  lemma AfterFour(u: Setup, w: World, a: Event, b: Event, c: Event, d: Event)
    ensures After(u, w, [a, b, c, d]) == Apply(u, Apply(u, Apply(u, Apply(u, w, a), b), c), d)
  {
    hide Apply;
    assert [a, b, c, d][..3] == [a, b, c] && [a, b, c][..2] == [a, b] && [a, b][..1] == [a] && [a][..0] == [];
    assert After(u, w, [a]) == Apply(u, w, a);
    assert After(u, w, [a, b]) == Apply(u, After(u, w, [a]), b);
    assert After(u, w, [a, b, c]) == Apply(u, After(u, w, [a, b]), c);
  }

  // Two transmissions of one new intent.
  lemma SentTwice(u: Setup, w: World, a: Attempt)
    requires Initial(w) && a == Attempt(Some(1), 1, 7, 0, false, {}, false)
    ensures var t := Apply(u, w, EvRequest(a, 2)); var c := Copy(1, 0, 7, w.now);
            && t.journal == [Row(1, 0, 7, 0, Pending, w.now, 0, None)] && t.copies == multiset{c, c}
            && t.receipts == map[] && t.now == w.now
  {
    assert Kept(w.journal, Evicted(a.evict)) == [];
  }

  lemma InvalidRow(j: seq<Row>, now: int)
    requires j == [Row(1, 0, 7, 0, Pending, now, 0, None)]
    ensures Settle(j, 1, NoEffect, now) == [Row(1, 0, 7, 0, Invalid, now, 0, None)]
  {
    var put := Put(j, 1, Settlement(NoEffect, now));
    assert put == [Row(1, 0, 7, 0, Invalid, now, 0, None)];
    assert put[..0] == [] && Kept([], Stale(now)) == [];
  }

  lemma DeclineOne(u: Setup, w: World, c: Copy)
    requires w.copies == multiset{c, c} && w.receipts == map[] && c == Copy(1, 0, 7, w.now) && !u.malformed(7)
    ensures var t := Apply(u, w, EvDeliver(c, Decline(NoEffect)));
            && t.copies == multiset{c} && Reply(1, 0, NoEffect) in t.replies && t.receipts == map[]
            && t.journal == w.journal && t.now == w.now
  {
  }

  lemma MarkInvalid(u: Setup, w: World, c: Copy)
    requires w.journal == [Row(1, 0, 7, 0, Pending, w.now, 0, None)] && Reply(1, 0, NoEffect) in w.replies
    ensures var t := Apply(u, w, EvReceive(Reply(1, 0, NoEffect)));
            t == w.(journal := [Row(1, 0, 7, 0, Invalid, w.now, 0, None)])
  {
    hide Settle;
    InvalidRow(w.journal, w.now);
  }

  lemma AcceptOne(u: Setup, w: World, c: Copy)
    requires w.copies == multiset{c} && w.receipts == map[] && c == Copy(1, 0, 7, w.now) && !u.malformed(7)
    ensures var t := Apply(u, w, EvDeliver(c, Accept(5))); t.journal == w.journal && Effective(t, 0)
  {
    var t := Apply(u, w, EvDeliver(c, Accept(5)));
    assert t.effects[|w.effects|].gen == 0;
  }

  /** Two copies: the second is declined and its intent marked invalid, then the first arrives and is accepted. */
  lemma InvalidMayTakeEffect(u: Setup, start: World)
    requires Initial(start) && !u.malformed(7)
    ensures var c := Copy(1, 0, 7, start.now);
            var events := [EvRequest(Attempt(Some(1), 1, 7, 0, false, {}, false), 2), EvDeliver(c, Decline(NoEffect)),
                           EvReceive(Reply(1, 0, NoEffect)), EvDeliver(c, Accept(5))];
            var w := After(u, start, events);
            |w.journal| == 1 && w.journal[0].status.Invalid? && w.journal[0].gen == 0 && Effective(w, 0)
  {
    hide Apply; hide After;
    var c := Copy(1, 0, 7, start.now);
    var a := Attempt(Some(1), 1, 7, 0, false, {}, false);
    SentTwice(u, start, a);
    var one := Apply(u, start, EvRequest(a, 2));
    var two := Apply(u, one, EvDeliver(c, Decline(NoEffect)));
    DeclineOne(u, one, c);
    var three := Apply(u, two, EvReceive(Reply(1, 0, NoEffect)));
    var four := Apply(u, three, EvDeliver(c, Accept(5)));
    MarkInvalid(u, two, c);
    AcceptOne(u, three, c);
    AfterFour(u, start, EvRequest(a, 2), EvDeliver(c, Decline(NoEffect)), EvReceive(Reply(1, 0, NoEffect)), EvDeliver(c, Accept(5)));
  }

  // ---- A run in which a reused key takes effect with other content ----

  function Ask(content: nat): Attempt { Attempt(Some(1), 1, content, 0, false, {}, false) }

  lemma FirstSent(u: Setup, w: World)
    requires Initial(w)
    ensures var t := Apply(u, w, EvRequest(Ask(7), 1)); var row := Row(1, 0, 7, 0, Pending, w.now, 0, None);
            && t == w.(journal := [row], issued := [row], copies := multiset{Copy(1, 0, 7, w.now)})
  {
    assert Kept(w.journal, Evicted({})) == [];
  }

  lemma FirstAccepted(u: Setup, w: World, c: Copy)
    requires w.copies == multiset{c} && w.receipts == map[] && c == Copy(1, 0, 7, w.now) && !u.malformed(7)
    ensures Apply(u, w, EvDeliver(c, Accept(5))) ==
            w.(copies := multiset{}, receipts := map[Place(u, 7, 1) := Receipt(7, 5, w.now + u.retention)],
               effects := w.effects + [Effect(1, 0, 7, 5, w.now)], replies := w.replies + {Reply(1, 0, Success(5))})
  {
  }

  // A settled row older than a week is deleted with its answer.
  lemma StaleRow(j: seq<Row>, created: int, now: int)
    requires j == [Row(1, 0, 7, 0, Pending, created, 0, None)] && created < now - WEEK
    ensures Settle(j, 1, Success(5), now) == []
  {
    var put := Put(j, 1, Settlement(Success(5), now));
    assert put == [Row(1, 0, 7, 0, Completed, created, 0, None)];
    assert put[..0] == [] && Kept([], Stale(now)) == [];
  }

  lemma Forgotten(u: Setup, w: World, created: int)
    requires w.journal == [Row(1, 0, 7, 0, Pending, created, 0, None)] && created < w.now - WEEK && Reply(1, 0, Success(5)) in w.replies
    ensures Apply(u, w, EvReceive(Reply(1, 0, Success(5)))) == w.(journal := [])
  {
    hide Settle;
    StaleRow(w.journal, created, w.now);
  }

  lemma Pruned(u: Setup, w: World, created: int)
    requires w.receipts == map[Place(u, 7, 1) := Receipt(7, 5, created + u.retention)]
    requires u.operation(7) != u.operation(8) || created + u.retention < w.now
    ensures var t := Apply(u, w, EvPrune);
            t == w.(receipts := t.receipts) && Place(u, 8, 1) !in t.receipts
  {
  }

  lemma SentAgain(u: Setup, w: World)
    requires w.journal == [] && |w.issued| == 1 && w.copies == multiset{}
    ensures var t := Apply(u, w, EvRequest(Ask(8), 1));
            && t.copies == multiset{Copy(1, 1, 8, w.now)} && t.receipts == w.receipts && t.effects == w.effects && t.now == w.now
  {
    assert Kept(w.journal, Evicted({})) == [];
  }

  lemma AcceptedAgain(u: Setup, w: World, c: Copy)
    requires w.copies == multiset{c} && c == Copy(1, 1, 8, w.now) && !u.malformed(8) && Place(u, 8, 1) !in w.receipts
    ensures Apply(u, w, EvDeliver(c, Accept(6))).effects == w.effects + [Effect(1, 1, 8, 6, w.now)]
  {
  }

  function Reuse(start: int, wait: nat): seq<Event> {
    [EvRequest(Ask(7), 1), EvDeliver(Copy(1, 0, 7, start), Accept(5)), EvElapse(wait), EvReceive(Reply(1, 0, Success(5))), EvPrune,
     EvRequest(Ask(8), 1), EvDeliver(Copy(1, 1, 8, start + wait), Accept(6))]
  }

  lemma AfterSeven(u: Setup, w: World, e: seq<Event>)
    requires |e| == 7
    ensures After(u, w, e) ==
            Apply(u, Apply(u, Apply(u, Apply(u, Apply(u, Apply(u, Apply(u, w, e[0]), e[1]), e[2]), e[3]), e[4]), e[5]), e[6])
  {
    hide Apply;
    assert e[..1][..0] == [] && e[..2][..1] == e[..1] && e[..3][..2] == e[..2] && e[..4][..3] == e[..3];
    assert e[..5][..4] == e[..4] && e[..6][..5] == e[..5];
    assert After(u, w, e[..1]) == Apply(u, w, e[0]);
    assert After(u, w, e[..2]) == Apply(u, After(u, w, e[..1]), e[1]);
    assert After(u, w, e[..3]) == Apply(u, After(u, w, e[..2]), e[2]);
    assert After(u, w, e[..4]) == Apply(u, After(u, w, e[..3]), e[3]);
    assert After(u, w, e[..5]) == Apply(u, After(u, w, e[..4]), e[4]);
    assert After(u, w, e[..6]) == Apply(u, After(u, w, e[..5]), e[5]);
  }

  /**
    An answered intent is forgotten by the journal after a week; its key,
    given again by the caller with other content, takes effect a second time if
    the content addresses another operation or the receipt was pruned.
   */
  lemma ReusedKeyMayTakeEffect(u: Setup, start: World, wait: nat)
    requires Initial(start) && !u.malformed(7) && !u.malformed(8) && wait > WEEK
    requires u.operation(7) != u.operation(8) || wait > u.retention
    ensures var w := After(u, start, Reuse(start.now, wait));
            && |w.effects| == 2 && w.effects[0].id == w.effects[1].id == 1
            && w.effects[0].content == 7 && w.effects[1].content == 8
  {
    hide Apply; hide After;
    var e := Reuse(start.now, wait);
    AfterSeven(u, start, e);
    FirstSent(u, start);
    var one := Apply(u, start, e[0]);
    FirstAccepted(u, one, Copy(1, 0, 7, start.now));
    var two := Apply(u, one, e[1]);
    var three := Apply(u, two, e[2]);
    Waited(u, two, wait);
    Forgotten(u, three, start.now);
    var four := Apply(u, three, e[3]);
    Pruned(u, four, start.now);
    var five := Apply(u, four, e[4]);
    SentAgain(u, five);
    AcceptedAgain(u, Apply(u, five, e[5]), Copy(1, 1, 8, start.now + wait));
  }

  lemma Waited(u: Setup, w: World, wait: nat)
    ensures Apply(u, w, EvElapse(wait)) == w.(now := w.now + wait)
  {
  }
}
