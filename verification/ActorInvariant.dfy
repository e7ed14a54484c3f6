/** The inductive invariant of the activation protocol. */
module ActorInvariant {
  import opened ActorProtocol
  import opened Counting
  import Mailbox
  import opened Numbers

  /** Threads that hold the activation: the CAS is won and the flag is not lowered yet. */
  function Token(l: Local): int {
    Bit(l.Won? || l.Entered? || l.FoundAlive? || l.Doomed? || l.Wiped? || l.Limiting? || l.Draining?
        || l.Popped? || l.Executing? || l.Drained? || l.Settled?)
  }

  /** Messages a thread took out without subtracting them, less those it put in without counting them. */
  function Debt(l: Local): int {
    match l
    case Claimed(_, _) => -1
    case Visible => -1
    case Draining(_, _, done, _) => done
    case Popped(_, _, done, _, _) => done + 1
    case Executing(_, _, done, _) => done + 1
    case Drained(done) => done
    case _ => 0
  }

  function MarkedOne(l: Local): int {
    Bit(l.Marked?)
  }

  /** The thread that reset the instance and has not given back the destroy credit. */
  function Repayer(l: Local): int {
    Bit(l.Wiped? || l.Lowered?)
  }

  /** Threads that are going to look at the counter or to try to activate. */
  function Waker(l: Local): int {
    Bit(l.Claimed? || l.Visible? || l.Marked? || l.Trying? || l.Stored?)
  }

  function HeldFrom(box: nat): Local -> int {
    (l: Local) => Bit(l.Popped? && l.box == box)
  }

  function UnpoppedOf(b: Mailbox.Box<Message>): int {
    Mailbox.Unpopped(b)
  }

  /** The messages of a log that came from one mailbox. */
  function From(log: seq<Execution>, box: nat): seq<Message> {
    if log == [] then []
    else
      var last := log[|log| - 1];
      From(log[..|log| - 1], box) + if last.box == box then [last.message] else []
  }

  /** How many executions of a log one activation made. */
  function RunsOf(log: seq<Execution>, act: nat): nat {
    if log == [] then 0
    else RunsOf(log[..|log| - 1], act) + if log[|log| - 1].activation == act then 1 else 0
  }

  lemma FromAppend(log: seq<Execution>, e: Execution, box: nat)
    ensures From(log + [e], box) == From(log, box) + if e.box == box then [e.message] else []
  {
    assert (log + [e])[..|log|] == log;
  }

  lemma RunsAppend(log: seq<Execution>, e: Execution, act: nat)
    ensures RunsOf(log + [e], act) == RunsOf(log, act) + if e.activation == act then 1 else 0
  {
    assert (log + [e])[..|log|] == log;
  }

  lemma {:induction false} NoRuns(log: seq<Execution>, act: nat)
    requires forall i :: 0 <= i < |log| ==> log[i].activation != act
    ensures RunsOf(log, act) == 0
  {
    if log != [] {
      NoRuns(log[..|log| - 1], act);
    }
  }

  // ---- the invariant ----

  ghost predicate BoxOk(capacity: nat, b: Mailbox.Box<Message>) {
    Mailbox.Valid(b) && (capacity == 0 || UnpoppedOf(b) <= capacity)
  }

  ghost predicate PlaceOk(g: Shared, l: Local) {
    l.Claimed? ==> l.box < |g.boxes| && l.place < |g.boxes[l.box].claimed|
  }

  ghost predicate BoxesOk(c: Config, s: State) {
    && |s.shared.boxes| == |c.capacities|
    && (forall b :: 0 <= b < |c.capacities| ==> BoxOk(c.capacities[b], s.shared.boxes[b]))
    && (forall t :: 0 <= t < |s.threads| ==> PlaceOk(s.shared, s.threads[t]))
  }

  ghost predicate TokenOk(s: State) {
    && Sum(Token, s.threads) + s.shared.scheduled + s.shared.past.deadEnds == Bit(s.shared.activated)
    && (s.shared.past.deadEnds > 0 ==> !s.shared.alive)
  }

  ghost predicate BudgetOk(c: Config, g: Shared, act: nat, done: nat, limit: nat) {
    g.alive && act == g.past.activations && (done == 0 || done < limit) && limit <= c.maxPerActivation
  }

  /** What a thread's program point says about the shared state. */
  ghost predicate LocalOk(c: Config, g: Shared, l: Local) {
    match l
    case Doomed => g.alive && g.destroyRequested
    case Wiped => !g.alive
    case Lowered => !g.alive
    case FoundAlive(act) => g.alive && act == g.past.activations
    case Limiting(act) => g.alive && act == g.past.activations
    case Draining(act, box, done, limit) => BudgetOk(c, g, act, done, limit)
    case Popped(act, box, done, limit, m) =>
      && BudgetOk(c, g, act, done, limit)
      && box < |g.boxes| && 0 < g.boxes[box].popped <= |g.boxes[box].claimed|
      && m == g.boxes[box].claimed[g.boxes[box].popped - 1]
    case Executing(act, box, done, limit) => BudgetOk(c, g, act, done, limit)
    case Drained(done) => g.alive
    case Settled => g.alive
    case _ => true
  }

  ghost predicate LocalsOk(c: Config, s: State) {
    && s.shared.past.resets == Bit(!s.shared.alive)
    && (!s.shared.alive ==> s.shared.destroyRequested)
    && (forall t :: 0 <= t < |s.threads| ==> LocalOk(c, s.shared, s.threads[t]))
  }

  ghost predicate CreditOk(s: State) {
    && Sum(MarkedOne, s.threads) == Bit(s.shared.destroyRequested && !s.shared.past.credited)
    && (s.shared.past.credited ==> s.shared.destroyRequested)
    && Sum(Repayer, s.threads) + Bit(s.shared.past.repaid) == Bit(!s.shared.alive)
  }

  /** Conservation: the counter is what the mailboxes hold, what threads owe it, and the destroy credit. */
  ghost predicate CountOk(s: State) {
    s.shared.count == Sum(UnpoppedOf, s.shared.boxes) + Sum(Debt, s.threads)
                      + Bit(s.shared.past.credited) - Bit(s.shared.past.repaid)
  }

  ghost predicate WakeOk(s: State) {
    s.shared.alive && !s.shared.activated && AsSizeT(s.shared.count) != 0 ==> Sum(Waker, s.threads) > 0
  }

  ghost predicate BoxOrderOk(s: State, b: nat)
    requires b < |s.shared.boxes|
  {
    var box := s.shared.boxes[b];
    && |From(s.shared.past.executed, b)| + Sum(HeldFrom(b), s.threads) == box.popped <= |box.claimed|
    && From(s.shared.past.executed, b) <= box.claimed
  }

  ghost predicate OrderOk(s: State) {
    forall b :: 0 <= b < |s.shared.boxes| ==> BoxOrderOk(s, b)
  }

  /** What the log says about the activation a thread is running. */
  ghost predicate RunOk(log: seq<Execution>, l: Local) {
    match l
    case FoundAlive(act) => RunsOf(log, act) == 0
    case Limiting(act) => RunsOf(log, act) == 0
    case Draining(act, box, done, limit) => RunsOf(log, act) == done && UpTo(log, act, box)
    case Popped(act, box, done, limit, m) => RunsOf(log, act) == done && UpTo(log, act, box)
    case Executing(act, box, done, limit) => RunsOf(log, act) == done + 1 && UpTo(log, act, box)
    case _ => true
  }

  ghost predicate UpTo(log: seq<Execution>, act: nat, box: nat) {
    forall i :: 0 <= i < |log| && log[i].activation == act ==> log[i].box <= box
  }

  /** Activations do not interleave, and each visits the mailboxes in order. */
  ghost predicate Serial(log: seq<Execution>) {
    forall i, j :: 0 <= i < j < |log| ==>
      && log[i].activation <= log[j].activation
      && (log[i].activation == log[j].activation ==> log[i].box <= log[j].box)
  }

  ghost predicate PastOk(c: Config, h: History) {
    && Serial(h.executed)
    && (forall i :: 0 <= i < |h.executed| ==> h.executed[i].activation <= h.activations)
    && (forall act: nat :: RunsOf(h.executed, act) <= Max(1, c.maxPerActivation))
  }

  ghost predicate LogOk(c: Config, s: State) {
    && PastOk(c, s.shared.past)
    && (forall t :: 0 <= t < |s.threads| ==> RunOk(s.shared.past.executed, s.threads[t]))
  }

  ghost predicate Inv(c: Config, s: State) {
    && BoxesOk(c, s) && TokenOk(s) && LocalsOk(c, s) && CreditOk(s)
    && CountOk(s) && WakeOk(s) && OrderOk(s) && LogOk(c, s)
  }

  // ---- consequences of the token count ----

  lemma WeightsPositive(threads: seq<Local>)
    ensures Positive(Token, threads) && Positive(Waker, threads)
    ensures Positive(MarkedOne, threads) && Positive(Repayer, threads)
  {
  }

  /** Only one thread holds the activation, and then the flag is up and nothing is scheduled. */
  lemma OneHolder(s: State, t: nat)
    requires TokenOk(s) && t < |s.threads| && Token(s.threads[t]) == 1
    ensures s.shared.activated && s.shared.scheduled == 0 && s.shared.past.deadEnds == 0
    ensures forall u :: 0 <= u < |s.threads| && u != t ==> Token(s.threads[u]) == 0
  {
    WeightsPositive(s.threads);
    SumAtLeast(Token, s.threads, t);
    forall u | 0 <= u < |s.threads| && u != t ensures Token(s.threads[u]) == 0 {
      SumAtLeastTwo(Token, s.threads, if t < u then t else u, if t < u then u else t);
    }
  }

  // ---- one step seen from the thread that takes it ----

  lemma TokenChange(c: Config, g: Shared, l: Local, a: Action, g': Shared, l': Local)
    requires Move(c, g, l, a, g', l')
    ensures Token(l') - Token(l) == Bit(l'.Won?) + Bit(a.Enter?) - Bit(a.Schedule?) - Bit(a.LowerDead? || a.Lower?)
                                    - Bit(a.CheckInstance? && !g.alive)
  {
  }

  lemma FlagChange(c: Config, g: Shared, l: Local, a: Action, g': Shared, l': Local)
    requires Move(c, g, l, a, g', l') && (Token(l) == 1 ==> g.activated)
    ensures Bit(g'.activated) - Bit(g.activated) == Bit(l'.Won?) - Bit(a.LowerDead? || a.Lower?)
  {
  }

  lemma ScheduleChange(c: Config, g: Shared, l: Local, a: Action, g': Shared, l': Local)
    requires Move(c, g, l, a, g', l')
    ensures g'.scheduled - g.scheduled == Bit(a.Schedule?) - Bit(a.Enter?)
    ensures g'.past.deadEnds - g.past.deadEnds == Bit(a.CheckInstance? && !g.alive)
    ensures !g.alive ==> !g'.alive
  {
  }

  lemma TokenMove(c: Config, g: Shared, l: Local, a: Action, g': Shared, l': Local)
    requires Move(c, g, l, a, g', l') && (Token(l) == 1 ==> g.activated)
    ensures Token(l') + g'.scheduled + g'.past.deadEnds - Bit(g'.activated)
         == Token(l) + g.scheduled + g.past.deadEnds - Bit(g.activated)
    ensures (g'.past.deadEnds > 0 ==> g.past.deadEnds > 0 || !g'.alive) && (!g.alive ==> !g'.alive)
  {
    TokenChange(c, g, l, a, g', l');
    FlagChange(c, g, l, a, g', l');
    ScheduleChange(c, g, l, a, g', l');
  }

  lemma MarkMove(c: Config, g: Shared, l: Local, a: Action, g': Shared, l': Local)
    requires Move(c, g, l, a, g', l')
    requires l.Marked? ==> g.destroyRequested && !g.past.credited
    requires g.past.credited ==> g.destroyRequested
    ensures MarkedOne(l') - Bit(g'.destroyRequested && !g'.past.credited)
         == MarkedOne(l) - Bit(g.destroyRequested && !g.past.credited)
    ensures g'.past.credited ==> g'.destroyRequested
  {
  }

  lemma RepayMove(c: Config, g: Shared, l: Local, a: Action, g': Shared, l': Local)
    requires Move(c, g, l, a, g', l') && LocalOk(c, g, l)
    requires Repayer(l) == 1 ==> !g.past.repaid
    ensures Repayer(l') + Bit(g'.past.repaid) - Bit(!g'.alive)
         == Repayer(l) + Bit(g.past.repaid) - Bit(!g.alive)
  {
  }

  /** A claim adds one unpopped message, a pop removes one, and nothing else changes their number. */
  lemma BoxCountMove(c: Config, g: Shared, l: Local, a: Action, g': Shared, l': Local)
    requires Move(c, g, l, a, g', l')
    ensures Sum(UnpoppedOf, g'.boxes) - Sum(UnpoppedOf, g.boxes) == Bit(a.Claim?) - Bit(l'.Popped?)
  {
    if a.Claim? {
      SumUpdate(UnpoppedOf, g.boxes, a.box, g'.boxes[a.box]);
    } else if a.Publish? {
      SumUpdate(UnpoppedOf, g.boxes, l.box, g'.boxes[l.box]);
    } else if a.TryPop? && l'.Popped? {
      SumUpdate(UnpoppedOf, g.boxes, l.box, g'.boxes[l.box]);
    } else {
      assert g'.boxes == g.boxes;
    }
  }

  function Given(l: Local): nat {
    if l.Drained? then l.done else 0
  }

  lemma CounterMove(c: Config, g: Shared, l: Local, a: Action, g': Shared, l': Local)
    requires Move(c, g, l, a, g', l')
    ensures g'.count - g.count == Bit(a.Add?) + Bit(a.AddCredit?) - Bit(a.Repay?) - Given(l)
  {
  }

  lemma DebtMove(c: Config, g: Shared, l: Local, a: Action, g': Shared, l': Local)
    requires Move(c, g, l, a, g', l')
    ensures Debt(l') - Debt(l) == Bit(a.Add?) - Bit(a.Claim?) + Bit(l'.Popped?) - Given(l)
  {
  }

  lemma DestroyMove(c: Config, g: Shared, l: Local, a: Action, g': Shared, l': Local)
    requires Move(c, g, l, a, g', l')
    requires l.Marked? ==> !g.past.credited
    requires Repayer(l) == 1 ==> !g.past.repaid
    ensures Bit(g'.past.credited) - Bit(g.past.credited) == Bit(a.AddCredit?)
    ensures Bit(g'.past.repaid) - Bit(g.past.repaid) == Bit(a.Repay?)
  {
  }

  lemma CountMove(c: Config, g: Shared, l: Local, a: Action, g': Shared, l': Local)
    requires Move(c, g, l, a, g', l')
    requires l.Marked? ==> !g.past.credited
    requires Repayer(l) == 1 ==> !g.past.repaid
    ensures g'.count - Sum(UnpoppedOf, g'.boxes) - Debt(l') - Bit(g'.past.credited) + Bit(g'.past.repaid)
         == g.count - Sum(UnpoppedOf, g.boxes) - Debt(l) - Bit(g.past.credited) + Bit(g.past.repaid)
  {
    BoxCountMove(c, g, l, a, g', l');
    CounterMove(c, g, l, a, g', l');
    DebtMove(c, g, l, a, g', l');
    DestroyMove(c, g, l, a, g', l');
  }

  lemma WakeMove(c: Config, g: Shared, l: Local, a: Action, g': Shared, l': Local)
    requires Move(c, g, l, a, g', l') && LocalOk(c, g, l) && (Token(l) == 1 ==> g.activated)
    ensures g'.alive && !g'.activated && AsSizeT(g'.count) != 0 ==>
              || Waker(l') == 1
              || (g.alive && !g.activated && AsSizeT(g.count) != 0 && Waker(l) == 0)
  {
  }

  lemma LocalMove(c: Config, g: Shared, l: Local, a: Action, g': Shared, l': Local)
    requires Move(c, g, l, a, g', l') && LocalOk(c, g, l)
    requires forall b :: 0 <= b < |g.boxes| ==> Mailbox.Valid(g.boxes[b])
    requires g.past.resets == Bit(!g.alive) && (!g.alive ==> g.destroyRequested)
    ensures LocalOk(c, g', l')
    ensures g'.past.resets == Bit(!g'.alive) && (!g'.alive ==> g'.destroyRequested)
  {
  }

  /** A step does not disturb what another thread relies on. */
  lemma OtherMove(c: Config, g: Shared, l: Local, a: Action, g': Shared, l': Local, u: Local)
    requires Move(c, g, l, a, g', l') && LocalOk(c, g, u) && (Token(l) == 1 ==> Token(u) == 0)
    ensures LocalOk(c, g', u)
  {
  }

  lemma PlaceMove(c: Config, g: Shared, l: Local, a: Action, g': Shared, l': Local, u: Local)
    requires Move(c, g, l, a, g', l') && PlaceOk(g, u)
    ensures PlaceOk(g', u) && PlaceOk(g', l')
  {
  }

  lemma BoxMove(c: Config, g: Shared, l: Local, a: Action, g': Shared, l': Local, b: nat)
    requires Move(c, g, l, a, g', l') && PlaceOk(g, l)
    requires b < |g.boxes| == |c.capacities| && BoxOk(c.capacities[b], g.boxes[b])
    ensures |g'.boxes| == |g.boxes| && BoxOk(c.capacities[b], g'.boxes[b])
  {
  }

  lemma OrderMove(c: Config, g: Shared, l: Local, a: Action, g': Shared, l': Local, b: nat)
    requires Move(c, g, l, a, g', l') && LocalOk(c, g, l)
    requires b < |g.boxes| && From(g.past.executed, b) <= g.boxes[b].claimed
    requires HeldFrom(b)(l) == 1 ==> |From(g.past.executed, b)| + 1 == g.boxes[b].popped
    requires g.boxes[b].popped <= |g.boxes[b].claimed|
    ensures |g'.boxes| == |g.boxes| && From(g'.past.executed, b) <= g'.boxes[b].claimed
    ensures g'.boxes[b].popped <= |g'.boxes[b].claimed|
    ensures |From(g'.past.executed, b)| + HeldFrom(b)(l') - g'.boxes[b].popped
         == |From(g.past.executed, b)| + HeldFrom(b)(l) - g.boxes[b].popped
  {
    if a.BeginExecute? {
      BeginMove(c, g, l, g', l', b);
    } else {
      LogUnchanged(c, g, l, a, g', l');
      if a.TryPop? {
        PopMove(c, g, l, g', l', b);
      } else {
        PopsUnchanged(c, g, l, a, g', l', b);
        HandUnchanged(c, g, l, a, g', l', b);
      }
    }
  }

  /** What begins to execute is the message that was popped last. */
  lemma BeginMove(c: Config, g: Shared, l: Local, g': Shared, l': Local, b: nat)
    requires Move(c, g, l, BeginExecute, g', l') && LocalOk(c, g, l)
    requires b < |g.boxes| && From(g.past.executed, b) <= g.boxes[b].claimed
    requires HeldFrom(b)(l) == 1 ==> |From(g.past.executed, b)| + 1 == g.boxes[b].popped
    requires g.boxes[b].popped <= |g.boxes[b].claimed|
    ensures g'.boxes == g.boxes && From(g'.past.executed, b) <= g.boxes[b].claimed
    ensures |From(g'.past.executed, b)| + HeldFrom(b)(l') == |From(g.past.executed, b)| + HeldFrom(b)(l)
  {
    FromAppend(g.past.executed, Execution(l.act, l.box, l.message), b);
  }

  /** A popped message is in the thread's hands. */
  lemma PopMove(c: Config, g: Shared, l: Local, g': Shared, l': Local, b: nat)
    requires Move(c, g, l, TryPop, g', l') && b < |g.boxes| && g.boxes[b].popped <= |g.boxes[b].claimed|
    ensures |g'.boxes| == |g.boxes| && g'.boxes[b].claimed == g.boxes[b].claimed
    ensures g'.boxes[b].popped <= |g'.boxes[b].claimed|
    ensures g'.boxes[b].popped - g.boxes[b].popped == HeldFrom(b)(l') - HeldFrom(b)(l)
  {
  }

  /** Outside TryPop and BeginExecute a mailbox only gains claims. */
  lemma PopsUnchanged(c: Config, g: Shared, l: Local, a: Action, g': Shared, l': Local, b: nat)
    requires Move(c, g, l, a, g', l') && b < |g.boxes| && !a.TryPop? && !a.BeginExecute?
    ensures |g'.boxes| == |g.boxes| && g'.boxes[b].popped == g.boxes[b].popped
    ensures g.boxes[b].claimed <= g'.boxes[b].claimed
  {
  }

  lemma HandUnchanged(c: Config, g: Shared, l: Local, a: Action, g': Shared, l': Local, b: nat)
    requires Move(c, g, l, a, g', l') && !a.TryPop? && !a.BeginExecute?
    ensures HeldFrom(b)(l') == HeldFrom(b)(l)
  {
  }

  lemma LogUnchanged(c: Config, g: Shared, l: Local, a: Action, g': Shared, l': Local)
    requires Move(c, g, l, a, g', l') && !a.BeginExecute?
    ensures g'.past.executed == g.past.executed && g'.past.activations >= g.past.activations
  {
  }

  lemma ExecuteMove(c: Config, h: History, e: Execution, limit: nat, h': History)
    requires PastOk(c, h) && h' == h.(executed := h.executed + [e])
    requires e.activation == h.activations && UpTo(h.executed, e.activation, e.box)
    requires RunsOf(h.executed, e.activation) < Max(1, limit) && limit <= c.maxPerActivation
    ensures PastOk(c, h') && UpTo(h'.executed, e.activation, e.box)
    ensures RunsOf(h'.executed, e.activation) == RunsOf(h.executed, e.activation) + 1
  {
    forall act: nat ensures RunsOf(h'.executed, act) == RunsOf(h.executed, act) + Bit(act == e.activation) {
      RunsAppend(h.executed, e, act);
    }
  }

  lemma LogMove(c: Config, g: Shared, l: Local, a: Action, g': Shared, l': Local)
    requires Move(c, g, l, a, g', l') && LocalOk(c, g, l)
    requires PastOk(c, g.past) && RunOk(g.past.executed, l)
    ensures PastOk(c, g'.past) && RunOk(g'.past.executed, l')
  {
    if a.BeginExecute? {
      ExecuteMove(c, g.past, Execution(l.act, l.box, l.message), l.limit, g'.past);
    } else {
      LogUnchanged(c, g, l, a, g', l');
      if a.CheckInstance? {
        NoRuns(g.past.executed, g.past.activations + 1);
      }
    }
  }

  lemma OtherLogMove(c: Config, g: Shared, l: Local, a: Action, g': Shared, l': Local, u: Local)
    requires Move(c, g, l, a, g', l') && RunOk(g.past.executed, u) && (Token(l) == 1 ==> Token(u) == 0)
    ensures RunOk(g'.past.executed, u)
  {
  }

  // ---- the invariant is kept ----

  lemma ScalarsKept(c: Config, s: State, t: nat, a: Action, s': State)
    requires Inv(c, s) && StepOf(c, s, t, a, s')
    ensures TokenOk(s') && CreditOk(s') && CountOk(s') && WakeOk(s')
  {
    var g, l, g', l' := s.shared, s.threads[t], s'.shared, s'.threads[t];
    WeightsPositive(s.threads);
    WeightsPositive(s'.threads);
    SumUpdate(Token, s.threads, t, l');
    SumUpdate(MarkedOne, s.threads, t, l');
    SumUpdate(Repayer, s.threads, t, l');
    SumUpdate(Debt, s.threads, t, l');
    SumUpdate(Waker, s.threads, t, l');
    SumAtLeast(Token, s.threads, t);
    SumAtLeast(MarkedOne, s.threads, t);
    SumAtLeast(Repayer, s.threads, t);
    SumAtLeast(Waker, s'.threads, t);
    TokenMove(c, g, l, a, g', l');
    MarkMove(c, g, l, a, g', l');
    RepayMove(c, g, l, a, g', l');
    CountMove(c, g, l, a, g', l');
    WakeMove(c, g, l, a, g', l');
  }

  lemma ThreadsKept(c: Config, s: State, t: nat, a: Action, s': State)
    requires Inv(c, s) && StepOf(c, s, t, a, s')
    ensures LocalsOk(c, s') && LogOk(c, s')
  {
    var g, l, g', l' := s.shared, s.threads[t], s'.shared, s'.threads[t];
    if Token(l) == 1 {
      OneHolder(s, t);
    }
    LocalMove(c, g, l, a, g', l');
    LogMove(c, g, l, a, g', l');
    forall u | 0 <= u < |s'.threads|
      ensures LocalOk(c, g', s'.threads[u]) && RunOk(g'.past.executed, s'.threads[u])
    {
      if u != t {
        OtherMove(c, g, l, a, g', l', s.threads[u]);
        OtherLogMove(c, g, l, a, g', l', s.threads[u]);
      }
    }
  }

  lemma BoxesKept(c: Config, s: State, t: nat, a: Action, s': State)
    requires Inv(c, s) && StepOf(c, s, t, a, s')
    ensures BoxesOk(c, s')
  {
    var g, l, g', l' := s.shared, s.threads[t], s'.shared, s'.threads[t];
    forall u | 0 <= u < |s'.threads| ensures PlaceOk(g', s'.threads[u]) {
      PlaceMove(c, g, l, a, g', l', s.threads[u]);
    }
    assert |g'.boxes| == |g.boxes|;
    forall b | 0 <= b < |c.capacities| ensures BoxOk(c.capacities[b], g'.boxes[b]) {
      BoxMove(c, g, l, a, g', l', b);
    }
  }

  lemma OrderKept(c: Config, s: State, t: nat, a: Action, s': State)
    requires Inv(c, s) && StepOf(c, s, t, a, s')
    ensures OrderOk(s')
  {
    var g, l, g', l' := s.shared, s.threads[t], s'.shared, s'.threads[t];
    assert |g'.boxes| == |g.boxes|;
    forall b | 0 <= b < |g'.boxes| ensures BoxOrderOk(s', b) {
      assert BoxOrderOk(s, b);
      SumUpdate(HeldFrom(b), s.threads, t, l');
      SumAtLeast(HeldFrom(b), s.threads, t);
      WeightsPositive(s.threads);
      SumMonotone(HeldFrom(b), Token, s.threads);
      OrderMove(c, g, l, a, g', l', b);
    }
  }

  lemma InitHolds(c: Config, s: State)
    requires Init(c, s)
    ensures Inv(c, s)
  {
    SumZero(Token, s.threads);
    SumZero(Debt, s.threads);
    SumZero(MarkedOne, s.threads);
    SumZero(Repayer, s.threads);
    SumZero(UnpoppedOf, s.shared.boxes);
    forall b | 0 <= b < |s.shared.boxes| ensures BoxOrderOk(s, b) {
      SumZero(HeldFrom(b), s.threads);
    }
  }

  lemma InvKept(c: Config, s: State, t: nat, a: Action, s': State)
    requires Inv(c, s) && StepOf(c, s, t, a, s')
    ensures Inv(c, s')
  {
    ScalarsKept(c, s, t, a, s');
    ThreadsKept(c, s, t, a, s');
    BoxesKept(c, s, t, a, s');
    OrderKept(c, s, t, a, s');
  }
}
