/** Following a Livy batch to its end: the poll loop with its deadline and cancellation check,
    what is made of the final state, and the batch id a restarted worker resumes from. */
module LivyWait {
  import opened Common
  import opened Base64
  import opened Decimals
  import opened LivyChannel

  // ---------------------------------------------------------------- batch ids

  const PREFIX := "livy-batch:"

  function ExternalId(batch: nat): string { PREFIX + Show(batch) }

  /** `re.fullmatch("livy-batch:([0-9]+)")`. */
  function BatchOf(externalId: string): Option<nat> {
    if |externalId| > |PREFIX| && externalId[..|PREFIX|] == PREFIX && AllDigits(externalId[|PREFIX|..]) then
      Some(Read(externalId[|PREFIX|..]))
    else None
  }

  /** An id with the prefix leads to the batch whose number follows, if nothing but digits does; any other id leads
      nowhere. */
  lemma BatchOfExactly(id: string, digits: string)
    ensures BatchOf("livy-batch:" + digits) ==
      if digits != "" && forall i :: 0 <= i < |digits| ==> digits[i] in "0123456789" then Some(Read(digits)) else None
    ensures BatchOf(id).Some? ==> |id| > 11 && id == "livy-batch:" + id[11..]
  {
    DigitsExactly(digits);
    assert ("livy-batch:" + digits)[11..] == digits && ("livy-batch:" + digits)[..11] == "livy-batch:";
  }

  /** The id that was recorded at submission leads a restarted worker to the same batch. */
  lemma ResumesTheSameBatch(batch: nat)
    ensures BatchOf(ExternalId(batch)) == Some(batch)
  {
    ReadShow(batch);
    assert ExternalId(batch)[|PREFIX|..] == Show(batch);
  }

  // ---------------------------------------------------------------- the poll loop

  function LowerChar(c: char): char { if 'A' <= c <= 'Z' then ((c as int) + 32) as char else c }

  function Lower(s: string): string { seq(|s|, i requires 0 <= i < |s| => LowerChar(s[i])) }

  predicate Succeeded(state: string) { state == "success" }

  predicate Failed(state: string) { state in {"dead", "error", "killed"} }

  predicate Over(state: string) { Succeeded(state) || Failed(state) }

  /** The world around the loop: the state in the submission's answer, and for its n-th turn
      the cancellation check, the clock, and the answer to the n-th status request (which may
      fail). Time is in ticks. */
  datatype World = World(first: string, cancel: nat -> bool, clock: nat -> int, poll: nat -> Option<string>)

  /** The state the loop knows at the start of turn `n`. */
  function StateAt(w: World, n: nat): string {
    if n == 0 then Lower(w.first) else if w.poll(n).Some? then Lower(w.poll(n).value) else "unknown"
  }

  /** Turn `n` goes through: the batch is not over, nobody cancels, there is time, and Livy answers. */
  predicate GoesOn(w: World, deadline: int, n: nat) {
    !Over(StateAt(w, n)) && !w.cancel(n) && w.clock(n) < deadline && w.poll(n + 1).Some?
  }

  /** A turn sleeps for the poll interval, so the clock has moved on by that much. */
  ghost predicate Ticking(w: World, start: int, interval: nat) {
    interval > 0 && forall n: nat :: w.clock(n) >= start + n * interval
  }

  datatype LoopEnd = Reached(state: string) | CanceledInLoop | TimedOut | PollFailed

  function CeilDiv(a: int, b: nat): nat
    requires b > 0
  {
    if a <= 0 then 0 else (a + b - 1) / b
  }

  /** The loop as the world has it: all turns before the last went through, and the last says how it
      ended: with a batch that is over; canceled or out of time, with one DELETE sent; or with a
      status request that failed. */
  ghost predicate LoopEnds(w: World, deadline: int, end: LoopEnd, gets: nat, deletes: nat) {
    var turns: nat := if end == PollFailed && gets > 0 then gets - 1 else gets;
    && (forall n: nat :: n < turns ==> GoesOn(w, deadline, n))
    && match end
       case Reached(s) => s == StateAt(w, turns) && Over(s) && deletes == 0
       case CanceledInLoop => !Over(StateAt(w, turns)) && w.cancel(turns) && deletes == 1
       case TimedOut => !Over(StateAt(w, turns)) && !w.cancel(turns) && w.clock(turns) >= deadline && deletes == 1
       case PollFailed =>
         gets == turns + 1 && !Over(StateAt(w, turns)) && !w.cancel(turns) && w.clock(turns) < deadline &&
         w.poll(gets).None? && deletes == 0
  }

  /** In the world's terms: every turn goes through until Livy says "success". */
  ghost predicate SuccessAfter(w: World, deadline: int, turns: nat) {
    (forall n: nat :: n < turns ==> GoesOn(w, deadline, n)) && StateAt(w, turns) == "success"
  }

  /** The words, in letters of either case, that end the loop. */
  predicate SaysSuccess(word: string) { Spells(word, "SUCCESS", "success") }

  predicate SaysFailure(word: string) {
    Spells(word, "DEAD", "dead") || Spells(word, "ERROR", "error") || Spells(word, "KILLED", "killed")
  }

  lemma LowerSpells(word: string, upper: string, lower: string)
    requires |upper| == |lower|
    requires forall i :: 0 <= i < |lower| ==> 'a' <= lower[i] <= 'z' && lower[i] as int == upper[i] as int + 32
    ensures Lower(word) == lower <==> Spells(word, upper, lower)
  {
    if Lower(word) == lower {
      forall i | 0 <= i < |word|
        ensures word[i] in {upper[i], lower[i]}
      {
        assert LowerChar(word[i]) == lower[i];
      }
    }
  }

  lemma FinalWords(word: string)
    ensures Lower(word) == "success" <==> SaysSuccess(word)
    ensures Lower(word) == "killed" <==> Spells(word, "KILLED", "killed")
    ensures Over(Lower(word)) <==> SaysSuccess(word) || SaysFailure(word)
  {
    LowerSpells(word, "SUCCESS", "success");
    LowerSpells(word, "DEAD", "dead");
    LowerSpells(word, "ERROR", "error");
    LowerSpells(word, "KILLED", "killed");
  }

  /** What Livy has said last when turn `n` begins. */
  function Said(w: World, n: nat): Option<string> { if n == 0 then Some(w.first) else w.poll(n) }

  /** The loop reaches a final state exactly by one of the four words, the first of them that Livy says, and with
      "success" exactly if it is that one; it goes on through anything else. */
  lemma EndsByTheFirstFinalWord(w: World, deadline: int, end: LoopEnd, gets: nat, deletes: nat)
    requires LoopEnds(w, deadline, end, gets, deletes)
    ensures end.Reached? <==>
      Said(w, gets).Some? && (SaysSuccess(Said(w, gets).value) || SaysFailure(Said(w, gets).value))
    ensures end.Reached? ==> (end.state == "success" <==> SaysSuccess(Said(w, gets).value))
    ensures end.Reached? ==> (end.state == "killed" <==> Spells(Said(w, gets).value, "KILLED", "killed"))
    ensures forall n: nat | n < gets ::
      Said(w, n).Some? && !SaysSuccess(Said(w, n).value) && !SaysFailure(Said(w, n).value)
  {
    if Said(w, gets).Some? {
      FinalWords(Said(w, gets).value);
    }
    forall n: nat | n < gets
      ensures Said(w, n).Some? && !SaysSuccess(Said(w, n).value) && !SaysFailure(Said(w, n).value)
    {
      var turns: nat := if end == PollFailed then gets - 1 else gets;
      assert n < turns ==> GoesOn(w, deadline, n);
      assert n > 0 ==> GoesOn(w, deadline, n - 1);
      if Said(w, n).Some? {
        FinalWords(Said(w, n).value);
      }
    }
  }

  /** The world decides how the loop ends. */
  lemma LoopEndsOneWay(
    w: World, deadline: int, end: LoopEnd, gets: nat, deletes: nat, end': LoopEnd, gets': nat, deletes': nat)
    requires LoopEnds(w, deadline, end, gets, deletes) && LoopEnds(w, deadline, end', gets', deletes')
    ensures end == end' && gets == gets' && deletes == deletes'
  {
    var turns: nat := if end == PollFailed && gets > 0 then gets - 1 else gets;
    var turns': nat := if end' == PollFailed && gets' > 0 then gets' - 1 else gets';
    assert !GoesOn(w, deadline, turns) && !GoesOn(w, deadline, turns');
  }

  /** The loop ends as the world has it. No request follows a final state, and there are at most
      ceil(timeout / interval) of them. */
  method PollUntilOver(w: World, ghost start: int, deadline: int, ghost interval: nat)
    returns (end: LoopEnd, gets: nat, deletes: nat)
    requires Ticking(w, start, interval)
    ensures LoopEnds(w, deadline, end, gets, deletes)
    ensures gets <= CeilDiv(deadline - start, interval)
  {
    var state := Lower(w.first);
    gets, deletes := 0, 0;
    while !Over(state)
      invariant state == StateAt(w, gets) && deletes == 0
      invariant forall n: nat :: n < gets ==> GoesOn(w, deadline, n)
      invariant gets <= CeilDiv(deadline - start, interval)
      decreases CeilDiv(deadline - start, interval) - gets
    {
      if w.cancel(gets) {
        deletes := deletes + 1;
        return CanceledInLoop, gets, deletes;
      }
      if w.clock(gets) >= deadline {
        deletes := deletes + 1;
        return TimedOut, gets, deletes;
      }
      OneMoreTurn(deadline - start, interval, gets);
      var answer := w.poll(gets + 1);
      gets := gets + 1;
      if answer.None? {
        return PollFailed, gets, deletes;
      }
      assert GoesOn(w, deadline, gets - 1);
      state := Lower(answer.value);
    }
    end := Reached(state);
  }

  lemma OneMoreTurn(timeout: int, interval: nat, n: nat)
    requires interval > 0 && n * interval < timeout
    ensures n + 1 <= CeilDiv(timeout, interval)
  {
    var q := CeilDiv(timeout, interval);
    assert q * interval >= timeout;
    assert n >= q ==> n * interval >= q * interval;
  }

  // ---------------------------------------------------------------- the verdict on the batch

  datatype BatchEnd<T> = Result(value: T) | OperationCanceled | Raised

  function EndOf<T>(p: Parsed<T>): BatchEnd<T> { if p.Recovered? then Result(p.value) else Raised }

  /** What is made of the log of a batch that was successful. */
  ghost predicate LogDecides<T(!new)>(
    log: seq<string>, maxLines: nat, loads: seq<Byte> -> Loaded<T>, r: BatchEnd<T>)
  {
    && ((forall n :: 0 <= n < |log| && n < maxLines ==> !Occurs(log[n], MARKER)) ==> r == Raised)
    && forall n, prefix, payload, trail | ResultLine(log, maxLines, n, prefix, payload, trail) ::
         r == if Occurs(prefix, MARKER) then Raised else EndOf(ParseLoaded(loads(payload)))
  }

  /** The lines that were fetched decide. */
  lemma FetchedLinesDecide<T(!new)>(
    log: seq<string>, maxLines: nat, loads: seq<Byte> -> Loaded<T>, p: Parsed<T>)
    requires var lines := Head(log, maxLines);
      && (p == NoMarker <==> forall n :: 0 <= n < |lines| ==> !Occurs(lines[n], MARKER))
      && (forall n: nat, i: nat :: LastMarked(lines, n) && FirstMarker(lines[n], i) ==>
            p == ParsePayload(Strip(lines[n][i + |MARKER|..]), loads))
    ensures LogDecides(log, maxLines, loads, EndOf(p))
  {
    var lines := Head(log, maxLines);
    forall n, prefix, payload, trail | ResultLine(log, maxLines, n, prefix, payload, trail)
      ensures EndOf(p) == if Occurs(prefix, MARKER) then Raised else EndOf(ParseLoaded(loads(payload)))
    {
      var i := ResultLineParses(lines, n, prefix, payload, trail, loads);
    }
  }

  /** `wait_for_batch`, to the end: how the loop ended decides what the caller gets. If every turn goes
      through until Livy says "success", the log is served, and its last marked line is the emitted one
      with no marker before it, then the emitted result is what the caller gets, and no DELETE was
      sent. Without such a line, or when the loop ends in any other way, nothing is made up. */
  method WaitForBatch<T(!new)>(
    w: World, ghost start: int, deadline: int, ghost interval: nat, cancelAfter: bool, server: LogServer,
    maxLines: nat, ghost log: seq<string>, loads: seq<Byte> -> Loaded<T>)
    returns (r: BatchEnd<T>, gets: nat, deletes: nat, ghost end: LoopEnd)
    requires Ticking(w, start, interval)
    ensures LoopEnds(w, deadline, end, gets, deletes) && gets <= CeilDiv(deadline - start, interval)
    ensures end == CanceledInLoop ==> r == OperationCanceled
    ensures end == TimedOut || end == PollFailed ==> r == Raised
    ensures end.Reached? && end.state != "success" ==>
      r == Raised || (r == OperationCanceled && end.state == "killed" && cancelAfter)
    ensures Serves(server, log) && end == Reached("killed") && cancelAfter ==> r == OperationCanceled
    ensures end.Reached? && end.state == "success" ==> r != OperationCanceled
    ensures Serves(server, log) && end.Reached? && end.state == "success" ==> LogDecides(log, maxLines, loads, r)
    ensures Serves(server, log) ==>
      forall turns, n, prefix, payload, trail | SuccessAfter(w, deadline, turns) &&
        ResultLine(log, maxLines, n, prefix, payload, trail) && !Occurs(prefix, MARKER) && loads(payload).Object? ::
          r == Result(loads(payload).value) && gets == turns && deletes == 0
  {
    var how: LoopEnd;
    how, gets, deletes := PollUntilOver(w, start, deadline, interval);
    end := how;
    match how {
      case CanceledInLoop => r := OperationCanceled;
      case TimedOut => r := Raised;
      case PollFailed => r := Raised;
      case Reached(state) =>
        var lines, _ := Logs(server, maxLines, log);
        if lines.None? {
          r := Raised;
        } else if Failed(state) {
          r := if state == "killed" && cancelAfter then OperationCanceled else Raised;
        } else {
          var parsed := ResultFromLogs(lines.value, loads);
          if Serves(server, log) {
            FetchedLinesDecide(log, maxLines, loads, parsed);
          }
          r := EndOf(parsed);
        }
    }
    if Serves(server, log) {
      forall turns, n, prefix, payload, trail | SuccessAfter(w, deadline, turns) &&
        ResultLine(log, maxLines, n, prefix, payload, trail) && !Occurs(prefix, MARKER) && loads(payload).Object?
        ensures r == Result(loads(payload).value) && gets == turns && deletes == 0
      {
        LoopEndsOneWay(w, deadline, end, gets, deletes, Reached(StateAt(w, turns)), turns, 0);
      }
    }
  }
}
