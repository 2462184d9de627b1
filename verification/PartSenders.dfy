/** Sending a file's missing parts from three senders over one shared counter, each part
    tried up to three times (frontend/app.js: `sendParts`, `putPart`,
    `putPartWithRetries`). JavaScript runs one sender at a time and switches only at an
    await, so a step is what one sender does between two awaits. */
module PartSenders {
  import opened Prelude
  import opened UploadParts

  const PARTS_IN_FLIGHT := 3

  const PART_ATTEMPTS := 3

  /** A sender is between two awaits: about to look at the counter, signing a part,
      waiting for the answer to an attempt, or pausing before the next one. */
  datatype Sender =
    | Ready
    | Signing(n: nat)
    | Putting(n: nat, attempt: nat)
    | Pausing(n: nat, attempt: nat)
    | Ended
    | Threw(lost: Option<nat>)

  /** What a PUT gives the page: a response, its ETag exposed or not, or no response. */
  datatype Answer = Response(code: nat, exposed: bool) | Dropped

  /** `taker` says which sender took a part from the counter; `puts` counts a part's PUTs
      and `again` the answers to them that may come out differently next time. They are
      history, which no step reads. */
  datatype State<B> = State(
    todo: seq<nat>,
    next: nat,
    senders: seq<Sender>,
    etags: map<nat, string>,
    stored: map<nat, seq<B>>,
    taker: map<nat, nat>,
    puts: multiset<nat>,
    again: multiset<nat>,
    cancelled: bool)

  /** `Stores` is storage keeping the bytes of a PUT, whether or not, and whenever, the
      page hears of it. */
  datatype Event = Step(k: nat) | Signs(k: nat, ok: bool) | Stores(n: nat) | Answers(k: nat, answer: Answer) | Cancels

  /** How many parts, the bytes of each, and the ETag storage gives bytes. */
  datatype Upload<!B> = Upload(count: nat, part: nat -> seq<B>, tag: seq<B> -> string)

  /** The parts are those of this file. */
  ghost predicate Splits<B>(u: Upload<B>, file: seq<B>, partSize: nat) {
    && partSize > 0 && u.count == PartCount(|file|, partSize)
    && forall n: nat :: 1 <= n <= u.count ==> u.part(n) == Slice(file, partSize, n)
  }

  /** The part numbers `from`..`count` the server does not hold. */
  function Todo(from: nat, count: int, held: set<nat>): (todo: seq<nat>)
    ensures forall k :: 0 <= k < |todo| ==> from <= todo[k] <= count && todo[k] !in held
    ensures forall n: nat :: from <= n <= count && n !in held ==> n in todo
    ensures forall i, j :: 0 <= i < j < |todo| ==> todo[i] < todo[j]
    decreases count - from
  {
    if from > count then []
    else if from in held then Todo(from + 1, count, held)
    else [from] + Todo(from + 1, count, held)
  }

  /** Part numbers the server signs: it refuses those above the count. */
  predicate Numbered(u: Upload, parts: set<nat>) {
    forall n :: n in parts ==> 1 <= n <= u.count
  }

  /** What the server says it holds of this file; storage may hold other bytes besides,
      under the upload's own numbers. */
  ghost predicate Held<B>(u: Upload<B>, held: map<nat, string>, stored: map<nat, seq<B>>) {
    && held.Keys <= stored.Keys && Numbered(u, stored.Keys)
    && forall n :: n in held ==> 1 <= n <= u.count && stored[n] == u.part(n) && held[n] == u.tag(u.part(n))
  }

  function Start<B>(u: Upload<B>, held: map<nat, string>, stored: map<nat, seq<B>>): State<B>
  {
    var todo := Todo(1, u.count, held.Keys);
    var sends := if |todo| < PARTS_IN_FLIGHT then |todo| else PARTS_IN_FLIGHT;
    State(todo, 0, seq(sends, _ => Ready), held, stored, map[], multiset{}, multiset{}, false)
  }

  predicate IsOk(answer: Answer) { answer.Response? && 200 <= answer.code <= 299 }

  /** The answers that may come out differently next time. */
  predicate Retryable(answer: Answer) {
    answer.Dropped? || answer.code >= 500 || answer.code == 408 || answer.code == 429
  }

  function Put<B>(s: State<B>, k: nat, to: Sender): State<B>
    requires k < |s.senders|
  {
    s.(senders := s.senders[k := to])
  }

  function Sends<B>(s: State<B>, k: nat, n: nat, attempt: nat): State<B>
    requires k < |s.senders|
  {
    Put(s, k, Putting(n, attempt)).(puts := s.puts + multiset{n})
  }

  function SenderStep<B>(s: State<B>, k: nat): State<B>
    requires k < |s.senders|
  {
    match s.senders[k]
    case Ready =>
      if s.next >= |s.todo| then Put(s, k, Ended)
      else if s.cancelled then Put(s, k, Threw(None))
      else Put(s, k, Signing(s.todo[s.next])).(next := s.next + 1, taker := s.taker[s.todo[s.next] := k])
    case Pausing(n, attempt) => Sends(s, k, n, attempt + 1)
    case _ => s
  }

  function SignStep<B>(s: State<B>, k: nat, ok: bool): State<B>
    requires k < |s.senders|
  {
    if !s.senders[k].Signing? then s
    else if ok then Sends(s, k, s.senders[k].n, 1)
    else Put(s, k, Threw(Some(s.senders[k].n)))
  }

  /** Any answer but a good one is returned or thrown by the last attempt, and by one
      that is not worth another. */
  function Heard(p: Sender, answer: Answer, cancelled: bool): Sender
    requires p.Putting?
  {
    if IsOk(answer) then if answer.exposed then Ready else Threw(Some(p.n))
    else if p.attempt == PART_ATTEMPTS || !Retryable(answer) || (answer.Dropped? && cancelled) then Threw(Some(p.n))
    else Pausing(p.n, p.attempt)
  }

  /** A good answer says that storage has the bytes. */
  function AnswerStep<B>(u: Upload<B>, s: State<B>, k: nat, answer: Answer): State<B>
    requires k < |s.senders|
  {
    if !s.senders[k].Putting? then s
    else
      var n := s.senders[k].n;
      Put(s, k, Heard(s.senders[k], answer, s.cancelled)).(
        stored := if IsOk(answer) then s.stored[n := u.part(n)] else s.stored,
        etags := if IsOk(answer) && answer.exposed then s.etags[n := u.tag(u.part(n))] else s.etags,
        again := if Retryable(answer) then s.again + multiset{n} else s.again)
  }

  function InHand(p: Sender): Option<nat> {
    match p
    case Signing(n) => Some(n)
    case Putting(n, _) => Some(n)
    case Pausing(n, _) => Some(n)
    case Threw(n) => n
    case _ => None
  }

  function Do<B>(u: Upload<B>, s: State<B>, e: Event): State<B>
  {
    match e
    case Step(k) => if k < |s.senders| then SenderStep(s, k) else s
    case Signs(k, ok) => if k < |s.senders| then SignStep(s, k, ok) else s
    case Stores(n) => if s.puts[n] > 0 then s.(stored := s.stored[n := u.part(n)]) else s
    case Answers(k, answer) => if k < |s.senders| then AnswerStep(u, s, k, answer) else s
    case Cancels => s.(cancelled := true)
  }

  function Run<B>(u: Upload<B>, s: State<B>, events: seq<Event>): State<B>
    decreases |events|
  {
    if events == [] then s else Run(u, Do(u, s, events[0]), events[1..])
  }

  // --- What every step keeps ---------------------------------------------------------

  ghost predicate Sent<B>(u: Upload<B>, s: State<B>, n: nat)
  {
    n in s.stored && s.stored[n] == u.part(n)
  }

  /** How often a part in this sender's hand was sent, and given a retryable answer. */
  predicate Counts(p: Sender, puts: nat, again: nat) {
    match p
    case Signing(_) => puts == again == 0
    case Putting(_, attempt) => 1 <= attempt <= PART_ATTEMPTS && puts == attempt && again == attempt - 1
    case Pausing(_, attempt) => 1 <= attempt < PART_ATTEMPTS && puts == again == attempt
    case _ => again <= puts <= again + 1 && puts <= PART_ATTEMPTS
  }

  /** Part `n` is held, untouched, in its one sender's hand, or answered for good. */
  ghost predicate PartOk<B>(u: Upload<B>, held: set<nat>, s: State<B>, n: nat)
  {
    && (n in s.etags ==> s.etags[n] == u.tag(u.part(n)) && Sent(u, s, n))
    && if n !in s.taker then (n in s.etags <==> n in held) && s.puts[n] == s.again[n] == 0
       else
         && n !in held && s.taker[n] < |s.senders|
         && var p := s.senders[s.taker[n]];
            if InHand(p) == Some(n) then n !in s.etags && Counts(p, s.puts[n], s.again[n])
            else n in s.etags && s.puts[n] == s.again[n] + 1 <= PART_ATTEMPTS
  }

  ghost predicate SenderOk<B>(s: State<B>, k: nat)
    requires k < |s.senders|
  {
    && (InHand(s.senders[k]).Some? ==>
          InHand(s.senders[k]).value in s.taker && s.taker[InHand(s.senders[k]).value] == k)
    && (s.senders[k].Ended? ==> s.next >= |s.todo|)
  }

  /** Taken are exactly the listed parts before the counter. */
  ghost predicate TakerOk(count: nat, held: set<nat>, todo: seq<nat>, next: nat, taker: map<nat, nat>) {
    && next <= |todo| && todo == Todo(1, count, held)
    && (forall n :: n in taker ==> 1 <= n <= count && n !in held)
    && (forall i :: 0 <= i < |todo| ==> (todo[i] in taker <==> i < next))
  }

  lemma TakeNext(count: nat, held: set<nat>, todo: seq<nat>, next: nat, taker: map<nat, nat>, k: nat)
    requires TakerOk(count, held, todo, next, taker) && next < |todo|
    ensures todo[next] !in taker && todo[next] !in held
    ensures TakerOk(count, held, todo, next + 1, taker[todo[next] := k])
  {
    assert forall i, j :: 0 <= i < j < |todo| ==> todo[i] < todo[j];
    hide Todo;
    var t := taker[todo[next] := k];
    forall i | 0 <= i < |todo| ensures todo[i] in t <==> i < next + 1 {
      assert i < next ==> todo[i] < todo[next];
      assert next < i ==> todo[next] < todo[i];
    }
  }

  ghost predicate Inv<B>(u: Upload<B>, held: set<nat>, s: State<B>) {
    && TakerOk(u.count, held, s.todo, s.next, s.taker)
    && (forall n: nat :: 1 <= n <= u.count ==> PartOk(u, held, s, n))
    && (forall k :: 0 <= k < |s.senders| ==> SenderOk(s, k))
    && (s.todo != [] ==> s.senders != [])
  }

  lemma StepKeepsPart<B>(u: Upload<B>, held: set<nat>, s: State<B>, k: nat, n: nat)
    requires PartOk(u, held, s, n) && k < |s.senders| && SenderOk(s, k)
    requires s.senders[k].Ready? && s.next < |s.todo| ==> s.todo[s.next] !in s.taker && s.todo[s.next] !in held
    ensures PartOk(u, held, SenderStep(s, k), n)
  {
  }

  lemma SignKeepsPart<B>(u: Upload<B>, held: set<nat>, s: State<B>, k: nat, ok: bool, n: nat)
    requires PartOk(u, held, s, n) && k < |s.senders| && SenderOk(s, k)
    ensures PartOk(u, held, SignStep(s, k, ok), n)
  {
  }

  lemma GoodAnswerKeepsPart<B>(u: Upload<B>, held: set<nat>, s: State<B>, k: nat, answer: Answer, n: nat)
    requires PartOk(u, held, s, n) && k < |s.senders| && SenderOk(s, k) && IsOk(answer)
    ensures PartOk(u, held, AnswerStep(u, s, k, answer), n)
  {
    assert !Retryable(answer);
    hide IsOk, Retryable;
  }

  lemma BadAnswerKeepsPart<B>(u: Upload<B>, held: set<nat>, s: State<B>, k: nat, answer: Answer, n: nat)
    requires PartOk(u, held, s, n) && k < |s.senders| && SenderOk(s, k) && !IsOk(answer)
    ensures PartOk(u, held, AnswerStep(u, s, k, answer), n)
  {
    hide IsOk, Retryable;
  }

  lemma TakeKeepsSender<B>(s: State<B>, k: nat, i: nat)
    requires k < |s.senders| && i < |s.senders| && SenderOk(s, i) && SenderOk(s, k)
    requires s.senders[k].Ready? && s.next < |s.todo| ==> s.todo[s.next] !in s.taker
    ensures SenderOk(SenderStep(s, k), i)
  {
  }

  /** A sender keeps its part or lets go of it. */
  lemma MoveKeepsSender<B>(s: State<B>, t: State<B>, k: nat, to: Sender, i: nat)
    requires k < |s.senders| && i < |s.senders| && SenderOk(s, i) && SenderOk(s, k)
    requires t.taker == s.taker && t.next == s.next && t.todo == s.todo && t.senders == s.senders[k := to]
    requires !to.Ended? && (InHand(to).None? || InHand(to) == InHand(s.senders[k]))
    ensures SenderOk(t, i)
  {
  }

  lemma SignKeepsSender<B>(s: State<B>, k: nat, ok: bool, i: nat)
    requires k < |s.senders| && i < |s.senders| && SenderOk(s, i) && SenderOk(s, k)
    ensures SenderOk(SignStep(s, k, ok), i)
  {
    hide SenderOk;
    var t := SignStep(s, k, ok);
    if t != s {
      MoveKeepsSender(s, t, k, t.senders[k], i);
    }
  }

  lemma AnswerKeepsSender<B>(u: Upload<B>, s: State<B>, k: nat, answer: Answer, i: nat)
    requires k < |s.senders| && i < |s.senders| && SenderOk(s, i) && SenderOk(s, k)
    ensures SenderOk(AnswerStep(u, s, k, answer), i)
  {
    hide SenderOk, IsOk, Retryable;
    if s.senders[k].Putting? {
      MoveKeepsSender(s, AnswerStep(u, s, k, answer), k, Heard(s.senders[k], answer, s.cancelled), i);
    }
  }

  lemma StepTakes<B>(u: Upload<B>, held: set<nat>, s: State<B>, k: nat)
    requires TakerOk(u.count, held, s.todo, s.next, s.taker) && k < |s.senders|
    ensures var t := SenderStep(s, k);
            && TakerOk(u.count, held, t.todo, t.next, t.taker)
            && t.todo == s.todo && |t.senders| == |s.senders|
    ensures s.next < |s.todo| ==> s.todo[s.next] !in s.taker && s.todo[s.next] !in held
  {
    hide TakerOk;
    if s.next < |s.todo| {
      TakeNext(u.count, held, s.todo, s.next, s.taker, k);
    }
  }

  lemma StepKeepsInv<B>(u: Upload<B>, held: set<nat>, s: State<B>, k: nat)
    requires Inv(u, held, s) && k < |s.senders|
    ensures Inv(u, held, SenderStep(s, k))
  {
    var t := SenderStep(s, k);
    StepTakes(u, held, s, k);
    hide SenderStep, PartOk, SenderOk, TakerOk;
    forall n: nat | 1 <= n <= u.count ensures PartOk(u, held, t, n) {
      StepKeepsPart(u, held, s, k, n);
    }
    forall i | 0 <= i < |t.senders| ensures SenderOk(t, i) {
      TakeKeepsSender(s, k, i);
    }
  }

  lemma SignKeepsInv<B>(u: Upload<B>, held: set<nat>, s: State<B>, k: nat, ok: bool)
    requires Inv(u, held, s) && k < |s.senders|
    ensures Inv(u, held, SignStep(s, k, ok))
  {
    hide PartOk, SenderOk, TakerOk;
    var t := SignStep(s, k, ok);
    forall n: nat | 1 <= n <= u.count ensures PartOk(u, held, t, n) {
      SignKeepsPart(u, held, s, k, ok, n);
    }
    forall i | 0 <= i < |t.senders| ensures SenderOk(t, i) {
      SignKeepsSender(s, k, ok, i);
    }
  }

  lemma AnswerKeepsInv<B>(u: Upload<B>, held: set<nat>, s: State<B>, k: nat, answer: Answer)
    requires Inv(u, held, s) && k < |s.senders|
    ensures Inv(u, held, AnswerStep(u, s, k, answer))
  {
    hide PartOk, SenderOk, TakerOk;
    var t := AnswerStep(u, s, k, answer);
    forall n: nat | 1 <= n <= u.count ensures PartOk(u, held, t, n) {
      if IsOk(answer) {
        GoodAnswerKeepsPart(u, held, s, k, answer, n);
      } else {
        BadAnswerKeepsPart(u, held, s, k, answer, n);
      }
    }
    forall i | 0 <= i < |t.senders| ensures SenderOk(t, i) {
      AnswerKeepsSender(u, s, k, answer, i);
    }
  }

  /** What storage keeps and a cancel are no sender's step. */
  lemma OutsideKeepsInv<B>(u: Upload<B>, held: set<nat>, s: State<B>, e: Event)
    requires Inv(u, held, s) && (e.Stores? || e.Cancels?)
    ensures Inv(u, held, Do(u, s, e))
  {
    var t := Do(u, s, e);
    forall n: nat | 1 <= n <= u.count ensures PartOk(u, held, t, n) {
      assert PartOk(u, held, s, n);
    }
    forall i | 0 <= i < |s.senders| ensures SenderOk(t, i) {
      assert SenderOk(s, i);
    }
  }

  lemma DoKeepsInv<B>(u: Upload<B>, held: set<nat>, s: State<B>, e: Event)
    requires Inv(u, held, s)
    ensures Inv(u, held, Do(u, s, e))
  {
    hide Inv, SenderStep, SignStep, AnswerStep;
    match e
    case Step(k) => if k < |s.senders| { StepKeepsInv(u, held, s, k); }
    case Signs(k, ok) => if k < |s.senders| { SignKeepsInv(u, held, s, k, ok); }
    case Answers(k, answer) => if k < |s.senders| { AnswerKeepsInv(u, held, s, k, answer); }
    case _ => OutsideKeepsInv(u, held, s, e);
  }

  lemma {:induction false} RunKeepsInv<B>(u: Upload<B>, held: set<nat>, s: State<B>, events: seq<Event>)
    requires Inv(u, held, s)
    ensures Inv(u, held, Run(u, s, events))
    decreases |events|
  {
    hide Inv, Do;
    if events != [] {
      DoKeepsInv(u, held, s, events[0]);
      RunKeepsInv(u, held, Do(u, s, events[0]), events[1..]);
    }
  }

  lemma StartInv<B>(u: Upload<B>, held: map<nat, string>, stored: map<nat, seq<B>>)
    requires Held(u, held, stored)
    ensures Inv(u, held.Keys, Start(u, held, stored))
  {
    var s := Start(u, held, stored);
    forall n: nat | 1 <= n <= u.count ensures PartOk(u, held.Keys, s, n) {
    }
  }

  /** Only the upload's own numbers are ever sent or stored. */
  ghost predicate Within<B>(u: Upload<B>, s: State<B>) {
    Numbered(u, s.stored.Keys) && forall n: nat :: s.puts[n] > 0 ==> 1 <= n <= u.count
  }

  lemma HandIsNumbered<B>(u: Upload<B>, held: set<nat>, s: State<B>, k: nat)
    requires Inv(u, held, s) && k < |s.senders| && InHand(s.senders[k]).Some?
    ensures 1 <= InHand(s.senders[k]).value <= u.count
  {
    assert SenderOk(s, k);
  }

  /** What a sender has in hand is all it can send or have stored. */
  lemma StepsKeepWithin<B>(u: Upload<B>, s: State<B>, k: nat, ok: bool)
    requires Within(u, s) && k < |s.senders|
    requires InHand(s.senders[k]).Some? ==> 1 <= InHand(s.senders[k]).value <= u.count
    ensures Within(u, SenderStep(s, k)) && Within(u, SignStep(s, k, ok))
  {
  }

  lemma AnswerKeepsWithin<B>(u: Upload<B>, s: State<B>, k: nat, answer: Answer)
    requires Within(u, s) && k < |s.senders|
    requires InHand(s.senders[k]).Some? ==> 1 <= InHand(s.senders[k]).value <= u.count
    ensures Within(u, AnswerStep(u, s, k, answer))
  {
    hide IsOk, Retryable, Heard;
  }

  lemma DoKeepsWithin<B>(u: Upload<B>, held: set<nat>, s: State<B>, e: Event)
    requires Inv(u, held, s) && Within(u, s)
    ensures Within(u, Do(u, s, e))
  {
    hide Inv, Within, SenderStep, SignStep, AnswerStep;
    if e.Stores? || e.Cancels? {
      OutsideKeepsWithin(u, s, e);
    } else if e.k < |s.senders| {
      if InHand(s.senders[e.k]).Some? {
        HandIsNumbered(u, held, s, e.k);
      }
      match e
      case Step(k) => StepsKeepWithin(u, s, k, true);
      case Signs(k, ok) => StepsKeepWithin(u, s, k, ok);
      case Answers(k, answer) => AnswerKeepsWithin(u, s, k, answer);
      case _ =>
    }
  }

  lemma OutsideKeepsWithin<B>(u: Upload<B>, s: State<B>, e: Event)
    requires Within(u, s) && (e.Stores? || e.Cancels?)
    ensures Within(u, Do(u, s, e))
  {
  }

  lemma {:induction false} RunKeepsWithin<B>(u: Upload<B>, held: set<nat>, s: State<B>, events: seq<Event>)
    requires Inv(u, held, s) && Within(u, s)
    ensures Within(u, Run(u, s, events))
    decreases |events|
  {
    hide Inv, Do, Within;
    if events != [] {
      DoKeepsInv(u, held, s, events[0]);
      DoKeepsWithin(u, held, s, events[0]);
      RunKeepsWithin(u, held, Do(u, s, events[0]), events[1..]);
    }
  }

  lemma Reachable<B>(u: Upload<B>, held: map<nat, string>, stored: map<nat, seq<B>>, events: seq<Event>)
    requires Held(u, held, stored)
    ensures Inv(u, held.Keys, Run(u, Start(u, held, stored), events))
    ensures Within(u, Run(u, Start(u, held, stored), events))
  {
    StartInv(u, held, stored);
    RunKeepsInv(u, held.Keys, Start(u, held, stored), events);
    RunKeepsWithin(u, held.Keys, Start(u, held, stored), events);
  }

  // --- What it comes to, over every run -------------------------------------------------

  /** `Promise.all` over the senders: the page goes on to completion. */
  predicate AllEnded<B>(s: State<B>) {
    forall k :: 0 <= k < |s.senders| ==> s.senders[k].Ended?
  }

  /** The manifest the page then sends. */
  function Manifest<B>(u: Upload<B>, s: State<B>): seq<PartRef>
    requires forall n: nat :: 1 <= n <= u.count ==> n in s.etags
  {
    seq(u.count, k requires 0 <= k < u.count => PartRef(k + 1, s.etags[k + 1]))
  }

  /** Everything storage holds of the upload. */
  function StoredParts<B>(u: Upload<B>, stored: map<nat, seq<B>>): set<StoredPart> {
    set n | n in stored :: StoredPart(n, u.tag(stored[n]), |stored[n]|)
  }

  /** What storage lists is that, each part once, in whatever order. */
  ghost predicate Lists<B>(u: Upload<B>, stored: map<nat, seq<B>>, actual: seq<StoredPart>) {
    multiset(actual) == multiset(StoredParts(u, stored))
  }

  lemma TakerStays<B>(u: Upload<B>, held: set<nat>, s: State<B>, e: Event, n: nat)
    requires Inv(u, held, s) && n in s.taker
    ensures var t := Do(u, s, e); n in t.taker && t.taker[n] == s.taker[n]
  {
    hide PartOk, SenderOk, Todo, IsOk, Retryable;
  }

  lemma {:induction false} TakerStaysOn<B>(u: Upload<B>, held: set<nat>, s: State<B>, events: seq<Event>, n: nat)
    requires Inv(u, held, s) && n in s.taker
    ensures var t := Run(u, s, events); n in t.taker && t.taker[n] == s.taker[n]
    decreases |events|
  {
    hide Inv, Do;
    if events != [] {
      TakerStays(u, held, s, events[0], n);
      DoKeepsInv(u, held, s, events[0]);
      TakerStaysOn(u, held, Do(u, s, events[0]), events[1..], n);
    }
  }

  /** Only the sender that took a part from the counter ever has it in hand, and it stays
      that one however the run goes on; a part the server held is taken by none. */
  lemma OneSenderPerPart<B>(u: Upload<B>, held: map<nat, string>, stored: map<nat, seq<B>>,
                            events: seq<Event>, more: seq<Event>, n: nat)
    requires Held(u, held, stored) && 1 <= n <= u.count
    ensures var s := Run(u, Start(u, held, stored), events);
            && (forall k: nat :: k < |s.senders| && InHand(s.senders[k]) == Some(n) ==> n in s.taker && s.taker[n] == k)
            && (n in s.taker ==> n !in held && var t := Run(u, s, more); n in t.taker && t.taker[n] == s.taker[n])
  {
    Reachable(u, held, stored, events);
    var s := Run(u, Start(u, held, stored), events);
    if n in s.taker {
      TakerStaysOn(u, held.Keys, s, more, n);
    }
    hide PartOk, TakerOk;
    forall k: nat | k < |s.senders| && InHand(s.senders[k]) == Some(n) ensures n in s.taker && s.taker[n] == k {
      assert SenderOk(s, k);
    }
  }

  /** However the senders interleave and fail, a part the server held is never sent; any
      other is sent at most PART_ATTEMPTS times, a second time only after a retryable
      answer, and once it is through, exactly once more than it got such answers. */
  lemma PartAttempts<B>(u: Upload<B>, held: map<nat, string>, stored: map<nat, seq<B>>, events: seq<Event>, n: nat)
    requires Held(u, held, stored) && 1 <= n <= u.count
    ensures var s := Run(u, Start(u, held, stored), events);
            && (n in held ==> s.puts[n] == 0)
            && s.puts[n] <= PART_ATTEMPTS
            && s.again[n] <= s.puts[n] <= s.again[n] + 1
            && (n !in held && n in s.etags ==> s.puts[n] == s.again[n] + 1 && (s.puts[n] == 1 <==> s.again[n] == 0))
  {
    Reachable(u, held, stored, events);
    assert PartOk(u, held.Keys, Run(u, Start(u, held, stored), events), n);
  }

  lemma EndedMeansSent<B>(u: Upload<B>, held: set<nat>, s: State<B>, n: nat)
    requires Inv(u, held, s) && AllEnded(s) && 1 <= n <= u.count
    ensures n in s.etags && s.etags[n] == u.tag(u.part(n)) && Sent(u, s, n)
    ensures s.puts[n] == if n in held then 0 else s.again[n] + 1
  {
    assert PartOk(u, held, s, n);
    if n !in held {
      var i :| 0 <= i < |s.todo| && s.todo[i] == n;
      assert SenderOk(s, 0);
    }
  }

  lemma AllSent<B>(u: Upload<B>, held: map<nat, string>, stored: map<nat, seq<B>>, events: seq<Event>)
    requires Held(u, held, stored)
    requires AllEnded(Run(u, Start(u, held, stored), events))
    ensures var s := Run(u, Start(u, held, stored), events);
            forall n: nat :: 1 <= n <= u.count ==>
              n in s.etags && n in s.stored && s.stored[n] == u.part(n) && s.etags[n] == u.tag(u.part(n))
              && s.puts[n] == if n in held then 0 else s.again[n] + 1
  {
    var s := Run(u, Start(u, held, stored), events);
    Reachable(u, held, stored, events);
    hide Inv, Run, AllEnded;
    forall n: nat | 1 <= n <= u.count
      ensures n in s.etags && n in s.stored && s.stored[n] == u.part(n) && s.etags[n] == u.tag(u.part(n))
      ensures s.puts[n] == if n in held then 0 else s.again[n] + 1
    {
      EndedMeansSent(u, held.Keys, s, n);
    }
  }

  /** Storage holding every part and no other number, the check passes. */
  lemma PartsPass<B>(u: Upload<B>, file: seq<B>, partSize: nat, s: State<B>, actual: seq<StoredPart>)
    requires Splits(u, file, partSize) && Numbered(u, s.stored.Keys) && Lists(u, s.stored, actual)
    requires forall n: nat :: 1 <= n <= u.count ==>
               n in s.etags && n in s.stored && s.stored[n] == u.part(n) && s.etags[n] == u.tag(u.part(n))
    ensures ByNumber(actual) == Expected(Manifest(u, s), |file|, partSize)
    ensures Contiguous(Manifest(u, s))
  {
    ListedAsExpected(u, file, partSize, s);
    hide Expected, ByNumber;
    ValidatedMeans(|file|, partSize, Manifest(u, s), actual);
  }

  lemma {:induction false} OnceEach<T>(s: seq<T>)
    requires forall i, j :: 0 <= i < j < |s| ==> s[i] != s[j]
    ensures multiset(s) == multiset(set x | x in s)
  {
    if s != [] {
      var rest, last := s[..|s| - 1], s[|s| - 1];
      OnceEach(rest);
      assert s == rest + [last];
      assert (set x | x in s) == (set x | x in rest) + {last};
    }
  }

  /** And the parts are the file. */
  lemma PartsAreFile<B>(u: Upload<B>, file: seq<B>, partSize: nat, s: State<B>)
    requires Splits(u, file, partSize)
    requires forall n: nat :: 1 <= n <= u.count ==> n in s.stored && s.stored[n] == u.part(n)
    ensures Flatten(seq(u.count, k requires 0 <= k < u.count => s.stored[k + 1])) == file
  {
    hide Slice, Flatten, PartCount;
    assert seq(u.count, k requires 0 <= k < u.count => s.stored[k + 1]) == Parts(file, partSize);
    PartsAssemble(file, partSize);
  }

  lemma ExpectedAt<B>(u: Upload<B>, file: seq<B>, partSize: nat, s: State<B>, k: nat)
    requires Splits(u, file, partSize) && k < u.count
    requires forall n: nat :: 1 <= n <= u.count ==>
               n in s.etags && n in s.stored && s.stored[n] == u.part(n) && s.etags[n] == u.tag(u.part(n))
    ensures |Expected(Manifest(u, s), |file|, partSize)| == u.count
    ensures Expected(Manifest(u, s), |file|, partSize)[k] == StoredPart(k + 1, u.tag(s.stored[k + 1]), |s.stored[k + 1]|)
  {
    assert |Slice(file, partSize, k + 1)| == PartBytes(k + 1, partSize, |file|);
  }

  lemma ListedAsExpected<B>(u: Upload<B>, file: seq<B>, partSize: nat, s: State<B>)
    requires Splits(u, file, partSize) && Numbered(u, s.stored.Keys)
    requires forall n: nat :: 1 <= n <= u.count ==>
               n in s.etags && n in s.stored && s.stored[n] == u.part(n) && s.etags[n] == u.tag(u.part(n))
    ensures multiset(StoredParts(u, s.stored)) == multiset(Expected(Manifest(u, s), |file|, partSize))
  {
    var expected := Expected(Manifest(u, s), |file|, partSize);
    assert |expected| == u.count;
    forall k: nat | k < u.count ensures expected[k] == StoredPart(k + 1, u.tag(s.stored[k + 1]), |s.stored[k + 1]|) {
      ExpectedAt(u, file, partSize, s, k);
    }
    hide Expected, Manifest, Splits;
    OnceEach(expected);
    forall p: StoredPart ensures p in StoredParts(u, s.stored) <==> p in expected {
      if p in StoredParts(u, s.stored) {
        assert p == expected[p.n - 1];
      }
    }
    assert StoredParts(u, s.stored) == set p | p in expected;
  }

  /** When every sender has ended, after whatever retries, each missing part was sent
      once more than it got retryable answers, the manifest passes the server's check
      against everything storage holds, listed in any order, and the parts it names are,
      in order, exactly the file's bytes. */
  lemma SentFileIsWhole<B>(u: Upload<B>, file: seq<B>, partSize: nat, held: map<nat, string>, stored: map<nat, seq<B>>,
                           events: seq<Event>, actual: seq<StoredPart>)
    requires Splits(u, file, partSize) && Held(u, held, stored)
    requires AllEnded(Run(u, Start(u, held, stored), events))
    requires Lists(u, Run(u, Start(u, held, stored), events).stored, actual)
    ensures var s := Run(u, Start(u, held, stored), events);
            && (forall n: nat :: 1 <= n <= u.count ==>
                  n in s.etags && n in s.stored && s.puts[n] == if n in held then 0 else s.again[n] + 1)
            && ByNumber(actual) == Expected(Manifest(u, s), |file|, partSize)
            && Contiguous(Manifest(u, s)) && |Manifest(u, s)| == PartCount(|file|, partSize)
            && Flatten(seq(u.count, k requires 0 <= k < u.count => s.stored[k + 1])) == file
  {
    AllSent(u, held, stored, events);
    Reachable(u, held, stored, events);
    hide Inv, Run, AllEnded;
    PartsPass(u, file, partSize, Run(u, Start(u, held, stored), events), actual);
    PartsAreFile(u, file, partSize, Run(u, Start(u, held, stored), events));
  }
}
