/**
 The cloud publish cycle (`updateThingSpeak`). If WiFi is down it issues one `WiFi.begin`,
 polls every 500 ms for at most 10 s of unsigned elapsed time, and abandons the cycle if the
 link is still down. Otherwise it sets the six channel fields in index order, makes a single
 write and classifies the answer: 200 is success, any other code is a logged failure.

 WiFi status, the clock and the write's answer are the environment (`Env`); the routine's
 observable behaviour is the trace of effects it emits.
 */
module ThingSpeak {
  import opened Wrappers
  import opened Clock
  import opened Values

  /** Ceiling on the reconnect wait, compared against unsigned elapsed `millis()`. */
  const ReconnectTimeoutMs: nat := 10000
  /** The `delay` between two readiness polls. */
  const PollDelayMs: nat := 500
  /** Polls that fit in the ceiling: 10000 / 500. */
  const MaxPolls: nat := 20
  /** The write's answer that counts as success. */
  const SuccessCode: int := 200

  /** The six values one cycle publishes, as passed in by the caller. */
  datatype Reading = Reading(temp: Float32, oilEmpty: bool, doorOpen: bool, lat: Float32, lon: Float32, load: Float32)

  /** A channel field value: the flags are sent as integers, the measurements as floats. */
  datatype FieldValue = IntField(n: int) | FloatField(x: Float32)

  /** The serial log lines of one cycle. */
  datatype LogLine = Reconnecting | Dot | LineEnd | ReconnectFailed | UpdateOk | UpdateFailed(code: int)

  datatype Effect =
    | Log(line: LogLine)
    | Begin(ssid: string, password: string)
    | Delay(ms: nat)
    | SetField(index: nat, value: FieldValue)
    | WriteFields

  /**
   The world the routine runs in. `ready(t)` is what `WiFi.status() == WL_CONNECTED` answers at
   true time `t` (ms since boot); `beginMs` is the true time from the entry check to the loop's
   first check (the log line, `WiFi.begin` and the `start = millis()` read); the `k`-th
   `delay(500)` of a cycle moves true time on by `advance(k)`; `response` is what `writeFields`
   returns.
   */
  datatype Env = Env(ready: nat -> bool, beginMs: nat, advance: nat -> nat, response: int)

  /** True time of `start = millis()` and of the loop's first check, for a cycle entered at `t0`. */
  function LoopStart(env: Env, t0: nat): nat {
    t0 + env.beginMs
  }

  datatype Outcome = Abandoned | Accepted | Rejected(code: int)

  /**
   A delay lasts at least the 500 ms asked for, and far less than a full turn of the 32-bit
   counter (so the unsigned elapsed test cannot skip over the ceiling).
   */
  ghost predicate ValidEnv(env: Env) {
    forall k: nat :: PollDelayMs <= env.advance(k) <= Modulus - ReconnectTimeoutMs
  }

  /** True time at the `k`-th evaluation of the loop condition, the loop having started at `tStart`. */
  function PollTime(env: Env, tStart: nat, k: nat): (t: nat)
    ensures tStart <= t
    ensures ValidEnv(env) ==> tStart + PollDelayMs * k <= t
    decreases k
  {
    if k == 0 then tStart else PollTime(env, tStart, k - 1) + env.advance(k - 1)
  }

  /** The loop condition at true time `t`: link down and unsigned elapsed time below the ceiling. */
  predicate StillWaiting(env: Env, tStart: nat, t: nat) {
    !env.ready(t) && Elapsed(Millis(t), Millis(tStart)) < ReconnectTimeoutMs
  }

  /** The loop condition held at each of the first `n` polls. */
  predicate WaitedThrough(env: Env, tStart: nat, n: nat) {
    forall k :: 0 <= k < n ==> StillWaiting(env, tStart, PollTime(env, tStart, k))
  }

  /**
   The loop stopped at its `n`-th check: the condition held at every earlier check and fails
   at this one, after `n` delays.
   */
  predicate StoppedAt(env: Env, tStart: nat, n: nat) {
    && n <= MaxPolls
    && WaitedThrough(env, tStart, n)
    && !StillWaiting(env, tStart, PollTime(env, tStart, n))
  }

  /** The loop can stop at only one check, so the number of delays it makes is determined. */
  lemma {:induction false} StopIsUnique(env: Env, tStart: nat, m: nat, n: nat)
    requires StoppedAt(env, tStart, m)
    requires StoppedAt(env, tStart, n)
    ensures m == n
  {
    assert m < n ==> StillWaiting(env, tStart, PollTime(env, tStart, m));
    assert n < m ==> StillWaiting(env, tStart, PollTime(env, tStart, n));
  }

  lemma WaitedThroughStep(env: Env, tStart: nat, n: nat)
    requires WaitedThrough(env, tStart, n)
    requires StillWaiting(env, tStart, PollTime(env, tStart, n))
    ensures WaitedThrough(env, tStart, n + 1)
  {
  }

  /** No field is set and nothing is written. */
  predicate NoUpload(trace: seq<Effect>) {
    forall i :: 0 <= i < |trace| ==> !trace[i].SetField? && !trace[i].WriteFields?
  }

  lemma NoUploadConcat(a: seq<Effect>, b: seq<Effect>)
    requires NoUpload(a) && NoUpload(b)
    ensures NoUpload(a + b)
  {
    forall i | 0 <= i < |a + b|
      ensures !(a + b)[i].SetField? && !(a + b)[i].WriteFields?
    {
      if i < |a| {
        assert (a + b)[i] == a[i];
      } else {
        assert (a + b)[i] == b[i - |a|];
      }
    }
  }

  /** A trace without uploads holds no write. */
  lemma NoUploadNoWrite(trace: seq<Effect>)
    requires NoUpload(trace)
    ensures multiset(trace)[WriteFields] == 0
  {
  }

  /** Framing upload-free effects between upload-free, delay-free effects adds no upload and no delay. */
  lemma Framed(head: seq<Effect>, mid: seq<Effect>, last: seq<Effect>)
    requires NoUpload(head) && NoUpload(mid) && NoUpload(last)
    requires Delay(PollDelayMs) !in head && Delay(PollDelayMs) !in last
    ensures NoUpload(head + mid + last)
    ensures multiset(head + mid + last)[WriteFields] == 0
    ensures multiset(head + mid + last)[Delay(PollDelayMs)] == multiset(mid)[Delay(PollDelayMs)]
    ensures |head| >= 2 ==> (head + mid + last)[..2] == head[..2]
  {
    NoUploadConcat(head, mid);
    NoUploadConcat(head + mid, last);
    NoUploadNoWrite(head + mid + last);
    assert multiset(head + mid + last) == multiset(head) + multiset(mid) + multiset(last);
  }

  /** The effects of `n` loop iterations: a 500 ms delay and a progress dot each, never an upload. */
  function DelayTrace(n: nat): (tr: seq<Effect>)
    ensures |tr| == 2 * n
    ensures NoUpload(tr)
  {
    if n == 0 then [] else DelayTrace(n - 1) + [Delay(PollDelayMs), Log(Dot)]
  }

  /** Loop turn `i` contributes the `delay(500)` at position `2i` and its progress dot right after. */
  lemma {:induction false} DelayTraceShape(n: nat)
    ensures forall i :: 0 <= i < n ==> DelayTrace(n)[2 * i] == Delay(PollDelayMs) && DelayTrace(n)[2 * i + 1] == Log(Dot)
  {
    if n > 0 {
      DelayTraceShape(n - 1);
      var prev := DelayTrace(n - 1);
      assert DelayTrace(n) == prev + [Delay(PollDelayMs), Log(Dot)];
      forall i | 0 <= i < n
        ensures DelayTrace(n)[2 * i] == Delay(PollDelayMs) && DelayTrace(n)[2 * i + 1] == Log(Dot)
      {
        if i < n - 1 {
          assert DelayTrace(n)[2 * i] == prev[2 * i];
          assert DelayTrace(n)[2 * i + 1] == prev[2 * i + 1];
        }
      }
    }
  }

  /** `n` loop iterations wait exactly `n` times. */
  lemma {:induction false} DelayTraceCounts(n: nat)
    ensures multiset(DelayTrace(n))[Delay(PollDelayMs)] == n
  {
    if n > 0 {
      DelayTraceCounts(n - 1);
      var tail := [Delay(PollDelayMs), Log(Dot)];
      assert DelayTrace(n) == DelayTrace(n - 1) + tail;
      assert multiset(DelayTrace(n)) == multiset(DelayTrace(n - 1)) + multiset{Delay(PollDelayMs), Log(Dot)};
    }
  }

  /**
   The reconnect loop. It stops at the FIRST poll at which the link is up or the unsigned
   elapsed time has reached the ceiling, after at most 20 delays; when it stops with the link
   down, at least 10 s of true time have passed.
   */
  method Reconnect(env: Env, tStart: nat) returns (t: nat, polls: nat)
    requires ValidEnv(env)
    ensures t == PollTime(env, tStart, polls)
    ensures polls <= MaxPolls
    ensures WaitedThrough(env, tStart, polls)
    ensures !StillWaiting(env, tStart, t)
    ensures !env.ready(t) ==> tStart + ReconnectTimeoutMs <= t
  {
    t, polls := tStart, 0;
    while StillWaiting(env, tStart, t)
      invariant t == PollTime(env, tStart, polls)
      invariant t < tStart + Modulus
      invariant polls <= MaxPolls
      invariant WaitedThrough(env, tStart, polls)
      decreases tStart + Modulus - t
    {
      WaitStep(env, tStart, polls);
      WaitedThroughStep(env, tStart, polls);
      t := t + env.advance(polls);
      polls := polls + 1;
    }
    ElapsedTracksTrueTime(tStart, t);
  }

  /**
   One more turn of the wait loop: while still waiting, fewer than 20 delays have been made and
   the next check comes later but still within one turn of the 32-bit counter.
   */
  lemma WaitStep(env: Env, tStart: nat, polls: nat)
    requires ValidEnv(env)
    requires PollTime(env, tStart, polls) < tStart + Modulus
    requires StillWaiting(env, tStart, PollTime(env, tStart, polls))
    ensures PollTime(env, tStart, polls) < PollTime(env, tStart, polls + 1) < tStart + Modulus
    ensures polls < MaxPolls
  {
    var t := PollTime(env, tStart, polls);
    ElapsedTracksTrueTime(tStart, t);
    assert t - tStart < ReconnectTimeoutMs;
  }

  /** Fields 1..6 in index order: temperature, oil (0 when empty), door (1 when open), latitude, longitude, load. */
  function FieldEffects(r: Reading): (fs: seq<Effect>)
    ensures |fs| == 6
    ensures forall i :: 0 <= i < |fs| ==> fs[i].SetField? && fs[i].index == i + 1
  {
    [ SetField(1, FloatField(r.temp)),
      SetField(2, IntField(if r.oilEmpty then 0 else 1)),
      SetField(3, IntField(if r.doorOpen then 1 else 0)),
      SetField(4, FloatField(r.lat)),
      SetField(5, FloatField(r.lon)),
      SetField(6, FloatField(r.load)) ]
  }

  /** Success exactly for 200; every other answer is a failure carrying its code. */
  function Classify(code: int): (o: Outcome)
    ensures o != Abandoned
    ensures o == Accepted <==> code == SuccessCode
    ensures o.Rejected? ==> o.code == code
  {
    if code == SuccessCode then Accepted else Rejected(code)
  }

  /** The publish path: six fields, one write, one result line. */
  function PublishTrace(r: Reading, code: int): seq<Effect> {
    FieldEffects(r) + [WriteFields, Log(if code == SuccessCode then UpdateOk else UpdateFailed(code))]
  }

  lemma PublishTraceCounts(r: Reading, code: int)
    ensures |PublishTrace(r, code)| == 8
    ensures multiset(PublishTrace(r, code))[WriteFields] == 1
    ensures multiset(PublishTrace(r, code))[Delay(PollDelayMs)] == 0
  {
    var tr := PublishTrace(r, code);
    assert multiset(tr) == multiset(FieldEffects(r)) + multiset{WriteFields, tr[7]};
  }

  /** The publish path alone: no `WiFi.begin`, no wait and no reconnect logging. */
  lemma PublishPathSkipsReconnect(r: Reading, code: int)
    ensures forall e :: e in PublishTrace(r, code) ==> !e.Begin? && !e.Delay? && e != Log(Reconnecting)
  {
  }

  /** The effects before the publish path when the link was down on entry. */
  function ReconnectTrace(ssid: string, password: string, polls: nat): (tr: seq<Effect>)
    ensures |tr| >= 2 && tr[..2] == [Log(Reconnecting), Begin(ssid, password)]
    ensures NoUpload(tr)
    ensures multiset(tr)[WriteFields] == 0
    ensures multiset(tr)[Delay(PollDelayMs)] == polls
  {
    var head := [Log(Reconnecting), Begin(ssid, password)];
    DelayTraceCounts(polls);
    ReconnectEnds(ssid, password);
    Framed(head, DelayTrace(polls), [Log(LineEnd)]);
    head + DelayTrace(polls) + [Log(LineEnd)]
  }

  /** The effects around the wait loop neither upload nor wait. */
  lemma ReconnectEnds(ssid: string, password: string)
    ensures NoUpload([Log(Reconnecting), Begin(ssid, password)]) && NoUpload([Log(LineEnd)])
    ensures Delay(PollDelayMs) !in [Log(Reconnecting), Begin(ssid, password)] && Delay(PollDelayMs) !in [Log(LineEnd)]
  {
  }

  /** The float carried by a `setField(index, ...)` effect. */
  function FloatAt(e: Effect, index: nat): Option<Float32> {
    if e.SetField? && e.index == index && e.value.FloatField? then Some(e.value.x) else None
  }

  /** The 0/1 flag carried by a `setField(index, ...)` effect. */
  function FlagAt(e: Effect, index: nat): Option<bool> {
    if e.SetField? && e.index == index && e.value.IntField? && 0 <= e.value.n <= 1 then Some(e.value.n == 1)
    else None
  }

  /** How the channel reads six field updates back as a reading (field 2 is 1 when the oil is full). */
  function DecodeFields(fs: seq<Effect>): Option<Reading> {
    if |fs| != 6 then None
    else
      var temp :- FloatAt(fs[0], 1);
      var oilFull :- FlagAt(fs[1], 2);
      var doorOpen :- FlagAt(fs[2], 3);
      var lat :- FloatAt(fs[3], 4);
      var lon :- FloatAt(fs[4], 5);
      var load :- FloatAt(fs[5], 6);
      Some(Reading(temp, !oilFull, doorOpen, lat, lon, load))
  }

  /** The field mapping loses nothing: the channel recovers exactly the reading that was sent. */
  lemma FieldsRoundTrip(r: Reading)
    ensures DecodeFields(FieldEffects(r)) == Some(r)
  {
  }

  /** The link stayed down at every poll up to the `n`-th, which came at or after the ceiling. */
  ghost predicate GaveUpAfter(env: Env, t0: nat, n: nat) {
    && (forall k :: 0 <= k <= n ==> !env.ready(PollTime(env, t0, k)))
    && t0 + ReconnectTimeoutMs <= PollTime(env, t0, n)
  }

  lemma GaveUp(env: Env, t0: nat, n: nat)
    requires WaitedThrough(env, t0, n)
    requires !env.ready(PollTime(env, t0, n)) && t0 + ReconnectTimeoutMs <= PollTime(env, t0, n)
    ensures GaveUpAfter(env, t0, n)
  {
    forall k | 0 <= k <= n
      ensures !env.ready(PollTime(env, t0, k))
    {
      if k < n {
        assert StillWaiting(env, t0, PollTime(env, t0, k));
      }
    }
  }

  /** Reconnecting failed: within at most 20 polls the ceiling was reached without the link coming up. */
  ghost predicate LinkStayedDown(env: Env, t0: nat) {
    exists n: nat :: n <= MaxPolls && GaveUpAfter(env, LoopStart(env, t0), n)
  }

  /**
   Reconnecting succeeded: at one of the loop's checks (at most 21) the link was up, every
   earlier check having found it down with time left.
   */
  ghost predicate LinkCameUp(env: Env, t0: nat) {
    exists n: nat ::
      && n <= MaxPolls
      && WaitedThrough(env, LoopStart(env, t0), n)
      && env.ready(PollTime(env, LoopStart(env, t0), n))
  }

  /**
   A link already up at the loop's first check counts as reconnected, and the loop stops at that
   check and nowhere else, so no delay is made.
   */
  lemma UpAtFirstCheck(env: Env, t0: nat)
    requires env.ready(LoopStart(env, t0))
    ensures LinkCameUp(env, t0)
    ensures forall n: nat :: StoppedAt(env, LoopStart(env, t0), n) ==> n == 0
  {
    var start := LoopStart(env, t0);
    assert WaitedThrough(env, start, 0);
    assert env.ready(PollTime(env, start, 0));
    assert StoppedAt(env, start, 0);
    forall n: nat | StoppedAt(env, start, n)
      ensures n == 0
    {
      StopIsUnique(env, start, 0, n);
    }
  }

  /** The trace of a cycle that gave up: nothing set or written, the failure line last. */
  predicate AbandonedTrace(trace: seq<Effect>) {
    && NoUpload(trace)
    && |trace| >= 2
    && trace[|trace| - 1] == Log(ReconnectFailed)
    && multiset(trace)[WriteFields] == 0
  }

  /** The trace of a cycle that published: an upload-free prefix, then the publish path with its single write. */
  predicate PublishedTrace(trace: seq<Effect>, r: Reading, code: int) {
    && |trace| >= 8
    && trace[|trace| - 8..] == PublishTrace(r, code)
    && NoUpload(trace[..|trace| - 8])
    && multiset(trace)[WriteFields] == 1
  }

  /**
   The reconnect block, entered with the link down: log, `WiFi.begin`, the wait loop, a line
   end, and the failure line if the link is still down afterwards. It carries on to the publish
   path exactly when the link was up at the check where the loop stopped, and it made exactly
   `polls` delays, `polls` being the check where the loop stopped.
   */
  method ReconnectBlock(env: Env, t0: nat, ssid: string, password: string)
    returns (prefix: seq<Effect>, connected: bool, polls: nat)
    requires ValidEnv(env)
    ensures StoppedAt(env, LoopStart(env, t0), polls)
    ensures prefix == ReconnectTrace(ssid, password, polls) + (if connected then [] else [Log(ReconnectFailed)])
    ensures multiset(prefix)[Delay(PollDelayMs)] == polls
    ensures |prefix| >= 2 && prefix[..2] == [Log(Reconnecting), Begin(ssid, password)]
    ensures NoUpload(prefix)
    ensures multiset(prefix)[Delay(PollDelayMs)] <= MaxPolls
    ensures connected <==> LinkCameUp(env, t0)
    ensures connected ==> multiset(prefix)[WriteFields] == 0
    ensures !connected ==> LinkStayedDown(env, t0) && AbandonedTrace(prefix)
  {
    var start := LoopStart(env, t0);
    var t;
    t, polls := Reconnect(env, start);
    prefix := ReconnectTrace(ssid, password, polls);
    connected := env.ready(t);
    if connected {
      assert env.ready(PollTime(env, start, polls));
    } else {
      GaveUp(env, start, polls);
      AppendFailure(prefix);
      prefix := prefix + [Log(ReconnectFailed)];
    }
  }

  /** Appending the failure line keeps the trace upload-free and adds no delay. */
  lemma AppendFailure(prefix: seq<Effect>)
    requires |prefix| >= 2 && NoUpload(prefix)
    requires multiset(prefix)[WriteFields] == 0
    ensures var failed := prefix + [Log(ReconnectFailed)];
            && failed[..2] == prefix[..2]
            && multiset(failed)[Delay(PollDelayMs)] == multiset(prefix)[Delay(PollDelayMs)]
            && AbandonedTrace(failed)
  {
    var failed := prefix + [Log(ReconnectFailed)];
    assert multiset(failed) == multiset(prefix) + multiset{Log(ReconnectFailed)};
    assert failed[..2] == prefix[..2];
    NoUploadConcat(prefix, [Log(ReconnectFailed)]);
  }

  /**
   `updateThingSpeak` for one reading, entered at true time `t0`. Connected on entry, it goes
   straight to the publish path; otherwise it starts with `WiFi.begin` and publishes exactly when
   the link was up at the check where the loop stopped. A cycle that gives up sets no field and writes nothing; a
   cycle that publishes ends with the six fields, its one write and the result line, and the
   outcome is success exactly for 200. The cycle makes exactly `polls` delays: none when connected
   on entry, otherwise one per check before the one where the loop stopped, and never more than 20.
   */
  method UpdateThingSpeak(r: Reading, ssid: string, password: string, env: Env, t0: nat)
    returns (trace: seq<Effect>, outcome: Outcome, polls: nat)
    requires ValidEnv(env)
    ensures env.ready(t0) ==> trace == PublishTrace(r, env.response)
    ensures !env.ready(t0) ==> |trace| >= 2 && trace[..2] == [Log(Reconnecting), Begin(ssid, password)]
    ensures outcome.Abandoned? <==> !env.ready(t0) && !LinkCameUp(env, t0)
    ensures outcome.Abandoned? ==> LinkStayedDown(env, t0) && AbandonedTrace(trace)
    ensures !outcome.Abandoned? ==> PublishedTrace(trace, r, env.response) && outcome == Classify(env.response)
    ensures multiset(trace)[Delay(PollDelayMs)] == polls <= MaxPolls
    ensures env.ready(t0) ==> polls == 0
    ensures !env.ready(t0) ==> StoppedAt(env, LoopStart(env, t0), polls)
  {
    var prefix: seq<Effect> := [];
    var connected := true;
    polls := 0;
    if !env.ready(t0) {
      prefix, connected, polls := ReconnectBlock(env, t0, ssid, password);
    }
    if connected {
      trace := prefix + PublishTrace(r, env.response);
      AppendPublish(prefix, r, env.response);
      outcome := Classify(env.response);
    } else {
      trace, outcome := prefix, Abandoned;
    }
  }

  /** Appending the publish path to an upload-free, write-free prefix gives a published trace. */
  lemma AppendPublish(prefix: seq<Effect>, r: Reading, code: int)
    requires NoUpload(prefix)
    requires multiset(prefix)[WriteFields] == 0
    ensures var trace := prefix + PublishTrace(r, code);
            && PublishedTrace(trace, r, code)
            && (|prefix| >= 2 ==> trace[..2] == prefix[..2])
            && (prefix == [] ==> trace == PublishTrace(r, code))
            && multiset(trace)[Delay(PollDelayMs)] == multiset(prefix)[Delay(PollDelayMs)]
  {
    var publish := PublishTrace(r, code);
    var trace := prefix + publish;
    PublishTraceCounts(r, code);
    assert multiset(trace) == multiset(prefix) + multiset(publish);
    assert trace[|trace| - 8..] == publish;
    assert trace[..|trace| - 8] == prefix;
  }
}
