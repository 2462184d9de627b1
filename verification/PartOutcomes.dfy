/** What each answer of storage does to a sender, what a cancel stops, and that senders
    that are answered get through (frontend/app.js: `sendParts`, `putPart`,
    `putPartWithRetries`). */
module PartOutcomes {
  import opened Prelude
  import opened UploadParts
  import opened PartSenders

  /** At most three parts are under way at once, and three from the start if as many
      are missing. */
  lemma {:induction false} ThreeAtOnce<B>(u: Upload<B>, held: map<nat, string>, stored: map<nat, seq<B>>, events: seq<Event>)
    ensures var missing := |Todo(1, u.count, held.Keys)|;
            |Run(u, Start(u, held, stored), events).senders| == if missing < 3 then missing else 3
  {
    SendersStay(u, Start(u, held, stored), events);
  }

  ghost predicate SameList<B>(s: State<B>, t: State<B>) { |t.senders| == |s.senders| && t.todo == s.todo }

  lemma SenderKeepsList<B>(s: State<B>, k: nat, ok: bool)
    requires k < |s.senders|
    ensures SameList(s, SenderStep(s, k)) && SameList(s, SignStep(s, k, ok))
  {
  }

  lemma AnswerKeepsList<B>(u: Upload<B>, s: State<B>, k: nat, answer: Answer)
    requires k < |s.senders|
    ensures SameList(s, AnswerStep(u, s, k, answer))
  {
    hide Heard, IsOk, Retryable;
  }

  lemma StepKeepsSenders<B>(u: Upload<B>, s: State<B>, e: Event)
    ensures SameList(s, Do(u, s, e))
  {
    hide SenderStep, SignStep, AnswerStep;
    match e
    case Step(k) => if k < |s.senders| { SenderKeepsList(s, k, true); }
    case Signs(k, ok) => if k < |s.senders| { SenderKeepsList(s, k, ok); }
    case Answers(k, answer) => if k < |s.senders| { AnswerKeepsList(u, s, k, answer); }
    case _ =>
  }

  lemma {:induction false} SendersStay<B>(u: Upload<B>, s: State<B>, events: seq<Event>)
    ensures |Run(u, s, events).senders| == |s.senders| && Run(u, s, events).todo == s.todo
    decreases |events|
  {
    hide Do;
    if events != [] {
      StepKeepsSenders(u, s, events[0]);
      SendersStay(u, Do(u, s, events[0]), events[1..]);
    }
  }

  // --- One sender ---------------------------------------------------------------------

  /** A free sender takes the next part and has it signed and put, unless none is left or
      the upload is cancelled. */
  lemma Takes<B>(u: Upload<B>, s: State<B>, k: nat)
    requires k < |s.senders| && s.senders[k] == Ready
    ensures var t := Do(u, s, Step(k));
            if s.next >= |s.todo| then t == s.(senders := s.senders[k := Ended])
            else if s.cancelled then t == s.(senders := s.senders[k := Threw(None)])
            else
              var n := s.todo[s.next];
              && t == s.(senders := s.senders[k := Signing(n)], next := s.next + 1, taker := s.taker[n := k])
              && Do(u, t, Signs(k, true)) == t.(senders := s.senders[k := Putting(n, 1)], puts := s.puts + multiset{n})
              && Do(u, t, Signs(k, false)) == t.(senders := s.senders[k := Threw(Some(n))])
  {
    if s.next < |s.todo| {
      var n := s.todo[s.next];
      assert s.senders[k := Signing(n)][k := Putting(n, 1)] == s.senders[k := Putting(n, 1)];
      assert s.senders[k := Signing(n)][k := Threw(Some(n))] == s.senders[k := Threw(Some(n))];
    }
  }

  /** An answer with a code in the two hundreds and an ETag gets the part through. */
  lemma GetsThrough<B>(u: Upload<B>, s: State<B>, k: nat, n: nat, attempt: nat, code: nat)
    requires k < |s.senders| && s.senders[k] == Putting(n, attempt) && 200 <= code <= 299
    ensures var t := Do(u, s, Answers(k, Response(code, true)));
            t == s.(senders := s.senders[k := Ready], stored := s.stored[n := u.part(n)], etags := s.etags[n := u.tag(u.part(n))])
    ensures var t := Do(u, s, Answers(k, Response(code, false)));
            t == s.(senders := s.senders[k := Threw(Some(n))], stored := s.stored[n := u.part(n)])
  {
    assert !Retryable(Response(code, true)) && !Retryable(Response(code, false));
  }

  /** Worth another attempt: a dropped connection while nobody has cancelled, a 408, a
      429 or a code from 500 on. */
  predicate Again(answer: Answer, cancelled: bool) {
    if answer.Dropped? then !cancelled else answer.code in {408, 429} || answer.code >= 500
  }

  predicate Bad(answer: Answer) { answer.Response? ==> answer.code < 200 || answer.code > 299 }

  /** A part is tried again after a pause, twice at most. */
  lemma TriesAgain<B>(u: Upload<B>, s: State<B>, k: nat, n: nat, attempt: nat, answer: Answer)
    requires k < |s.senders| && s.senders[k] == Putting(n, attempt) && attempt < 3 && Bad(answer) && Again(answer, s.cancelled)
    ensures var t := Do(u, s, Answers(k, answer));
            && t == s.(senders := s.senders[k := Pausing(n, attempt)], again := s.again + multiset{n})
            && Do(u, t, Step(k)) == t.(senders := s.senders[k := Putting(n, attempt + 1)], puts := s.puts + multiset{n})
  {
    assert s.senders[k := Pausing(n, attempt)][k := Putting(n, attempt + 1)] == s.senders[k := Putting(n, attempt + 1)];
  }

  /** Any other bad answer, and the third, ends the upload, and nothing more is put. */
  lemma GivesUp<B>(u: Upload<B>, s: State<B>, k: nat, n: nat, attempt: nat, answer: Answer)
    requires k < |s.senders| && s.senders[k] == Putting(n, attempt) && Bad(answer)
    requires attempt == 3 || !Again(answer, s.cancelled)
    ensures var t := Do(u, s, Answers(k, answer));
            t == s.(senders := s.senders[k := Threw(Some(n))], again := t.again)
  {
  }

  // --- A cancel ------------------------------------------------------------------------

  /** After a cancel no further part is taken from the list, however the run goes on. */
  lemma {:induction false} CancelStops<B>(u: Upload<B>, s: State<B>, events: seq<Event>)
    requires s.cancelled
    ensures var t := Run(u, s, events); t.cancelled && t.next == s.next && t.taker == s.taker
    decreases |events|
  {
    if events != [] {
      CancelStops(u, Do(u, s, events[0]), events[1..]);
    }
  }

  // --- Senders that are answered get through --------------------------------------------

  /** How much a sender has still to do with what it has. */
  function Weight(p: Sender): nat {
    match p
    case Ready => 1
    case Signing(_) => 3
    case Putting(_, _) => 2
    case Pausing(_, _) => 3
    case Ended => 0
    case Threw(_) => 0
  }

  function Weights(senders: seq<Sender>): nat {
    if senders == [] then 0 else Weight(senders[0]) + Weights(senders[1..])
  }

  lemma {:induction false} WeightPut(senders: seq<Sender>, k: nat, to: Sender)
    requires k < |senders|
    ensures Weights(senders[k := to]) == Weights(senders) - Weight(senders[k]) + Weight(to)
  {
    if k == 0 {
      assert senders[k := to][1..] == senders[1..];
    } else {
      assert senders[k := to][1..] == senders[1..][k - 1 := to];
      WeightPut(senders[1..], k - 1, to);
    }
  }

  ghost predicate Going<B>(s: State<B>) {
    !s.cancelled && s.next <= |s.todo| && forall k :: 0 <= k < |s.senders| ==> !s.senders[k].Threw?
  }

  ghost function Left<B>(s: State<B>): int {
    4 * (|s.todo| - s.next) + Weights(s.senders)
  }

  /** What a sender that has not ended is to be given next. */
  function Served(k: nat, p: Sender): Event {
    match p
    case Signing(_) => Signs(k, true)
    case Putting(_, _) => Answers(k, Response(200, true))
    case _ => Step(k)
  }

  lemma ServedGoes<B>(u: Upload<B>, s: State<B>, k: nat)
    requires Going(s) && k < |s.senders| && !s.senders[k].Ended?
    ensures var t := Do(u, s, Served(k, s.senders[k])); Going(t) && Left(t) < Left(s)
  {
    var t := Do(u, s, Served(k, s.senders[k]));
    hide Weights;
    assert t.senders == s.senders[k := t.senders[k]];
    WeightPut(s.senders, k, t.senders[k]);
  }

  /** From anywhere in an upload that nothing has ended, storage can answer so that all
      its senders come to their end: no sender waits for another, and no part is in the way. */
  lemma {:induction false} CanFinish<B>(u: Upload<B>, s: State<B>) returns (events: seq<Event>)
    requires Going(s)
    ensures AllEnded(Run(u, s, events)) && !Run(u, s, events).cancelled
    decreases Left(s)
  {
    events := [];
    if k: nat :| k < |s.senders| && !s.senders[k].Ended? {
      var e := Served(k, s.senders[k]);
      ServedGoes(u, s, k);
      hide Do, Left, Going;
      var rest := CanFinish(u, Do(u, s, e));
      events := [e] + rest;
      assert events[1..] == rest;
    }
  }

  /** So every upload can be finished, from its start. */
  lemma UploadCanFinish<B>(u: Upload<B>, held: map<nat, string>, stored: map<nat, seq<B>>) returns (events: seq<Event>)
    ensures AllEnded(Run(u, Start(u, held, stored), events))
  {
    events := CanFinish(u, Start(u, held, stored));
  }
}
