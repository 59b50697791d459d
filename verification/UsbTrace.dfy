/**
 What happens to the transfers of the USB device, as a history of events: which histories are in order, and what that
 means for the bytes that are moved, for the reports of `poll`, and for the deferred STATUS OUT.
 */
module UsbTrace {
  import opened Bytes
  import opened Sequences
  import opened UsbMemory

  datatype Event =
    | Started(head: nat, bytes: seq<Byte>)     // a queue head is primed, with these bytes in its buffer
    | Completed(head: nat, bytes: seq<Byte>)   // the hardware has moved these bytes
    | Request(descriptor: bool)                // a set-up packet is read, which may be GET_DESCRIPTOR
    | Reported(ins: set<nat>, status: bool)    // `poll` reports these IN endpoints, or a STATUS OUT
    | Taken(head: nat)                         // `read` takes a completed transfer
    | BusReset(dropped: set<nat>)              // `reset` clears completed transfers
    | Flushed                                  // `reset` cancels started transfers

  /** Transfers started, transfers completed and not yet handled, and the two phases of a STATUS OUT to come. */
  datatype Ledger = Ledger(flying: map<nat, seq<Byte>>, open: map<nat, seq<Byte>>, armed: bool, due: bool)

  const CLEAR := Ledger(map[], map[], false, false)

  /** The queue heads of IN endpoints. */
  function Heads(ins: set<nat>): set<nat> {
    (if 0 in ins then {1} else {}) + (if 1 in ins then {3} else {})
  }

  predicate IsIn0(e: Event) {
    e.Reported? && 0 in e.ins
  }

  predicate IsStatus(e: Event) {
    e.Reported? && e.status
  }

  function Next(l: Ledger, e: Event): Ledger {
    match e
    case Started(k, bytes) => l.(flying := l.flying[k := bytes])
    case Completed(k, bytes) => l.(flying := l.flying - {k}, open := l.open[k := bytes])
    case Request(descriptor) => l.(armed := l.armed || descriptor)
    case Reported(ins, status) =>
      l.(open := l.open - Heads(ins), armed := l.armed && 0 !in ins,
         due := if 0 in ins && l.armed then true else l.due && !status)
    case Taken(k) => l.(open := l.open - {k})
    case BusReset(dropped) => l.(open := l.open - dropped)
    case Flushed => l.(flying := map[])
  }

  /**
   Only started transfers are completed, once each, and to the host with the bytes they were started with. Only
   completed ones are reported, read or dropped, and to the host no other is started before. STATUS OUT is reported when
   it is due, and alone.
   */
  predicate Allowed(l: Ledger, e: Event) {
    match e
    case Started(k, _) => IsIn(k) ==> k !in l.open
    case Completed(k, bytes) => k in l.flying && k !in l.open && (IsIn(k) ==> bytes == l.flying[k])
    case Reported(ins, status) => ins <= {0, 1} && Heads(ins) <= l.open.Keys && (status ==> ins == {} && l.due)
    case Taken(k) => k in l.open
    case BusReset(dropped) => dropped == l.open.Keys
    case _ => true
  }

  function After(trace: seq<Event>): Ledger {
    if trace == [] then CLEAR else Next(After(Front(trace)), Last(trace))
  }

  predicate InOrder(trace: seq<Event>) {
    trace == [] || (InOrder(Front(trace)) && Allowed(After(Front(trace)), Last(trace)))
  }

  lemma {:induction false} EventNext(trace: seq<Event>, e: Event)
    requires InOrder(trace) && Allowed(After(trace), e)
    ensures InOrder(trace + [e]) && After(trace + [e]) == Next(After(trace), e)
  {
    assert Front(trace + [e]) == trace;
  }

  lemma {:induction false} EventKeeps(trace: seq<Event>, e: Event)
    requires !e.Request? && !e.Reported?
    ensures After(trace + [e]).armed == After(trace).armed && After(trace + [e]).due == After(trace).due
  {
    assert Front(trace + [e]) == trace;
  }

  lemma {:induction false} OrderAt(trace: seq<Event>, n: nat)
    requires InOrder(trace) && n <= |trace|
    ensures InOrder(trace[..n])
    ensures n < |trace| ==> Allowed(After(trace[..n]), trace[n])
    ensures n < |trace| ==> After(trace[..n + 1]) == Next(After(trace[..n]), trace[n])
    decreases |trace| - n
  {
    if n < |trace| {
      OrderAt(trace, n + 1);
      assert Front(trace[..n + 1]) == trace[..n];
    } else {
      assert trace[..n] == trace;
    }
  }

  // ---- Bytes ----------------------------------------------------------------------------------------------------

  /** What happens to the transfer that a queue head has in flight: it is completed or cancelled, or started again. */
  predicate Touches(e: Event, k: nat) {
    e.Flushed? || (e.Completed? && e.head == k) || (e.Started? && e.head == k)
  }

  lemma FrontAt(trace: seq<Event>, m: nat)
    requires m < |trace|
    ensures Front(trace)[..m] == trace[..m]
  {
  }

  /** A transfer in flight was started, and since then has neither been completed nor cancelled nor started again. */
  lemma FlyingSince(trace: seq<Event>, k: nat) returns (s: nat)
    requires InOrder(trace) && k in After(trace).flying
    ensures s < |trace| && trace[s] == Started(k, After(trace).flying[k])
    ensures forall m :: s < m <= |trace| ==> k in After(trace[..m]).flying
    ensures forall m :: s < m < |trace| ==> !Touches(trace[m], k)
  {
    var n := |trace| - 1;
    if Last(trace).Started? && Last(trace).head == k {
      s := n;
    } else {
      s := FlyingSince(Front(trace), k);
      assert !Touches(Last(trace), k);
    }
    forall m | s < m <= |trace| ensures k in After(trace[..m]).flying {
      if m <= n {
        FrontAt(trace, m);
      } else {
        assert trace[..m] == trace;
      }
    }
  }

  /** A transfer not yet handled was completed, and has been there since. */
  lemma OpenSince(trace: seq<Event>, k: nat) returns (c: nat)
    requires InOrder(trace) && k in After(trace).open
    ensures c < |trace| && trace[c] == Completed(k, After(trace).open[k])
    ensures forall m :: c < m <= |trace| ==> k in After(trace[..m]).open
  {
    var n := |trace| - 1;
    c := n;
    if !(Last(trace).Completed? && Last(trace).head == k) {
      c := OpenSince(Front(trace), k);
    }
    forall m | c < m <= |trace| ensures k in After(trace[..m]).open {
      if m <= n {
        FrontAt(trace, m);
      } else {
        assert trace[..m] == trace;
      }
    }
  }

  /** What the hardware sends is what was written for that transfer, once, and nothing that was cancelled. */
  lemma SentAsWritten(trace: seq<Event>, c: nat) returns (s: nat)
    requires InOrder(trace) && c < |trace| && trace[c].Completed? && IsIn(trace[c].head)
    ensures s < c && trace[s] == Started(trace[c].head, trace[c].bytes)
    ensures forall m :: s < m < c ==> !Touches(trace[m], trace[c].head)
  {
    OrderAt(trace, c);
    s := FlyingSince(trace[..c], trace[c].head);
  }

  // ---- Reports --------------------------------------------------------------------------------------------------

  function Completions(trace: seq<Event>, k: nat): nat {
    if trace == [] then 0
    else Completions(Front(trace), k) + if Last(trace).Completed? && Last(trace).head == k then 1 else 0
  }

  function Reports(trace: seq<Event>, k: nat): nat {
    if trace == [] then 0
    else Reports(Front(trace), k) + if Last(trace).Reported? && k in Heads(Last(trace).ins) then 1 else 0
  }

  function Reads(trace: seq<Event>, k: nat): nat {
    if trace == [] then 0 else Reads(Front(trace), k) + if Last(trace) == Taken(k) then 1 else 0
  }

  function Drops(trace: seq<Event>, k: nat): nat {
    if trace == [] then 0
    else Drops(Front(trace), k) + if Last(trace).BusReset? && k in Last(trace).dropped then 1 else 0
  }

  /** Every completed transfer is reported or read, once, or was dropped by a bus reset, unless it is still to come. */
  lemma {:induction false} EachCounted(trace: seq<Event>, k: nat)
    requires InOrder(trace)
    ensures Completions(trace, k)
            == Reports(trace, k) + Reads(trace, k) + Drops(trace, k) + if k in After(trace).open then 1 else 0
  {
    if trace != [] {
      EachCounted(Front(trace), k);
    }
  }

  /** A bus reset drops a transfer exactly when it finds one completed and not yet handled. */
  lemma {:induction false} DropsIff(trace: seq<Event>, k: nat)
    requires InOrder(trace)
    ensures Drops(trace, k) == 0
            <==> forall j :: 0 <= j < |trace| && trace[j].BusReset? ==> k !in After(trace[..j]).open
  {
    if trace != [] {
      var n := |trace| - 1;
      var init := Front(trace);
      DropsIff(init, k);
      assert trace[..n] == init;
      assert forall j :: 0 <= j < n ==> init[..j] == trace[..j];
    }
  }

  /** So every completed transfer is reported or read, or is still to come, exactly when no bus reset finds one. */
  lemma {:induction false} NothingLostIff(trace: seq<Event>, k: nat)
    requires InOrder(trace)
    ensures Completions(trace, k) == Reports(trace, k) + Reads(trace, k) + (if k in After(trace).open then 1 else 0)
            <==> forall j :: 0 <= j < |trace| && trace[j].BusReset? ==> k !in After(trace[..j]).open
  {
    EachCounted(trace, k);
    DropsIff(trace, k);
  }

  // ---- STATUS OUT -----------------------------------------------------------------------------------------------

  lemma ArmedSince(trace: seq<Event>) returns (a: nat)
    requires After(trace).armed
    ensures a < |trace| && trace[a] == Request(true)
    ensures forall k :: a < k < |trace| ==> !IsIn0(trace[k]) && trace[k] != Request(true)
  {
    if Last(trace) == Request(true) {
      a := |trace| - 1;
    } else {
      a := ArmedSince(Front(trace));
    }
  }

  lemma DueSince(trace: seq<Event>) returns (a: nat, i: nat)
    requires InOrder(trace) && After(trace).due
    ensures a < i < |trace| && trace[a] == Request(true) && IsIn0(trace[i])
    ensures forall k :: a < k < i ==> !IsIn0(trace[k]) && trace[k] != Request(true)
    ensures forall k :: i <= k < |trace| ==> !IsStatus(trace[k])
  {
    if IsIn0(Last(trace)) && After(Front(trace)).armed {
      a := ArmedSince(Front(trace));
      i := |trace| - 1;
    } else {
      a, i := DueSince(Front(trace));
    }
  }

  function Armings(trace: seq<Event>): nat {
    if trace == [] then 0 else Armings(Front(trace)) + if Last(trace) == Request(true) then 1 else 0
  }

  function Statuses(trace: seq<Event>): nat {
    if trace == [] then 0 else Statuses(Front(trace)) + if IsStatus(Last(trace)) then 1 else 0
  }

  /** Each STATUS OUT that has been reported or is still to come has a GET_DESCRIPTOR of its own. */
  lemma {:induction false} AtMostOncePerArming(trace: seq<Event>)
    requires InOrder(trace)
    ensures Statuses(trace) + (if After(trace).due then 1 else 0) + (if After(trace).armed then 1 else 0)
            <= Armings(trace)
  {
    if trace != [] {
      AtMostOncePerArming(Front(trace));
    }
  }

  /** A STATUS OUT that is due stays due until it is reported. */
  lemma {:induction false} DueUntilReported(trace: seq<Event>, i: nat, j: nat)
    requires InOrder(trace) && i <= j <= |trace| && After(trace[..i]).due
    requires forall k :: i <= k < j ==> !IsStatus(trace[k])
    ensures After(trace[..j]).due
  {
    if i < j {
      DueUntilReported(trace, i, j - 1);
      OrderAt(trace, j - 1);
    }
  }

  /** What ends a control transfer before its time. */
  predicate Cancels(e: Event) {
    e.Request? || e.BusReset? || e == Taken(1)
  }

  /** The control endpoint completes a transfer to the host in this part of the history. */
  ghost predicate DataPhase(trace: seq<Event>, a: nat, i: nat)
    requires i <= |trace|
  {
    exists c :: a < c < i && trace[c].Completed? && trace[c].head == 1
  }

  /** It completes one that is also started in it, with the bytes of that start. */
  ghost predicate OwnDataPhase(trace: seq<Event>, a: nat, i: nat)
    requires i <= |trace|
  {
    exists s, c :: a < s < c < i && trace[c].Completed? && trace[c].head == 1 && trace[s] == Started(1, trace[c].bytes)
  }

  /** It starts one. */
  ghost predicate Starts(trace: seq<Event>, a: nat, i: nat)
    requires i <= |trace|
  {
    exists s :: a < s < i && trace[s].Started? && trace[s].head == 1
  }

  lemma {:induction false} StepsOpen(trace: seq<Event>, n: nat)
    requires InOrder(trace) && n < |trace| && 1 in After(trace[..n]).open
    requires !IsIn0(trace[n]) && trace[n] != Taken(1) && !trace[n].BusReset?
    ensures 1 in After(trace[..n + 1]).open && !(trace[n].Completed? && trace[n].head == 1)
  {
    OrderAt(trace, n);
  }

  /** While a completed transfer waits for its report, the endpoint completes no other. */
  lemma {:induction false} NoDataPhase(trace: seq<Event>, a: nat, i: nat)
    requires InOrder(trace) && a < i < |trace| && 1 in After(trace[..a + 1]).open
    requires forall k :: a < k < i ==> !IsIn0(trace[k]) && !Cancels(trace[k])
    ensures 1 in After(trace[..i]).open && !DataPhase(trace, a, i)
  {
    if a + 1 < i {
      NoDataPhase(trace, a, i - 1);
      StepsOpen(trace, i - 1);
    }
  }

  lemma FindDataPhase(trace: seq<Event>, a: nat, i: nat) returns (c: nat)
    requires InOrder(trace) && a < i < |trace| && IsIn0(trace[i]) && trace[a].Request? && 1 !in After(trace[..a]).open
    ensures a < c < i && trace[c].Completed? && trace[c].head == 1
    ensures forall m :: c < m <= i ==> 1 in After(trace[..m]).open
  {
    OrderAt(trace, i);
    assert 1 in Heads(trace[i].ins);
    c := OpenSince(trace[..i], 1);
    assert trace[..i][..a] == trace[..a];
    forall m | c < m <= i ensures 1 in After(trace[..m]).open {
      assert trace[..i][..m] == trace[..m];
    }
  }

  lemma FindStart(trace: seq<Event>, a: nat, c: nat) returns (s: nat)
    requires InOrder(trace) && a < c < |trace| && trace[a].Request? && trace[c].Completed? && trace[c].head == 1
    requires 1 !in After(trace[..a]).flying || Starts(trace, a, c)
    ensures a < s < c && trace[s] == Started(1, trace[c].bytes)
  {
    OrderAt(trace, c);
    s := FlyingSince(trace[..c], 1);
    assert trace[..c][..a] == trace[..a];
  }

  /** While a completed transfer waits for its report, the endpoint starts no other. */
  lemma {:induction false} StartsBefore(trace: seq<Event>, a: nat, c: nat, i: nat)
    requires InOrder(trace) && a < c < i < |trace| && forall m :: c < m <= i ==> 1 in After(trace[..m]).open
    requires trace[c].Completed? && Starts(trace, a, i)
    ensures Starts(trace, a, c)
  {
    var s :| a < s < i && trace[s].Started? && trace[s].head == 1;
    OrderAt(trace, s);
  }

  /**
   Of a request that nothing cancels, the first IN0 report stands for a data phase after the request exactly when no
   completed transfer was still to be reported at the request; and for its own data phase, exactly when, besides, none
   was in flight then or another was started since.
   */
  lemma {:induction false} DataPhaseIff(trace: seq<Event>, a: nat, i: nat)
    requires InOrder(trace) && a < i < |trace| && trace[a].Request? && IsIn0(trace[i])
    requires forall k :: a < k < i ==> !IsIn0(trace[k]) && !Cancels(trace[k])
    ensures DataPhase(trace, a, i) <==> 1 !in After(trace[..a]).open
    ensures OwnDataPhase(trace, a, i)
            <==> 1 !in After(trace[..a]).open && (1 !in After(trace[..a]).flying || Starts(trace, a, i))
  {
    OrderAt(trace, a);
    if 1 in After(trace[..a]).open {
      NoDataPhase(trace, a, i);
    } else {
      var c := FindDataPhase(trace, a, i);
      if 1 !in After(trace[..a]).flying || Starts(trace, a, i) {
        if 1 in After(trace[..a]).flying {
          StartsBefore(trace, a, c, i);
        }
        var s := FindStart(trace, a, c);
      }
    }
  }

  /** The request is answered: nothing has cancelled it, and the report at `i` was of its own data phase. */
  ghost predicate Answers(trace: seq<Event>, a: nat, i: nat, j: nat)
    requires i <= j <= |trace|
  {
    (forall k :: a < k < j ==> !Cancels(trace[k])) && OwnDataPhase(trace, a, i)
  }

  /**
   A reported STATUS OUT is alone, and the first after the first IN0 report `i` after a GET_DESCRIPTOR `a`, the latest
   then. It answers that request exactly when nothing cancels the request, and the control endpoint had no transfer to
   report at the request and none in flight, unless another was started since.
   */
  lemma StatusAnswersRequest(trace: seq<Event>, j: nat) returns (a: nat, i: nat)
    requires InOrder(trace) && j < |trace| && IsStatus(trace[j])
    ensures trace[j].ins == {} && a < i < j && trace[a] == Request(true) && IsIn0(trace[i])
    ensures forall k :: a < k < i ==> !IsIn0(trace[k]) && trace[k] != Request(true)
    ensures forall k :: i <= k < j ==> !IsStatus(trace[k])
    ensures Answers(trace, a, i, j) <==>
              && (forall k :: a < k < j ==> !Cancels(trace[k]))
              && 1 !in After(trace[..a]).open && (1 !in After(trace[..a]).flying || Starts(trace, a, i))
  {
    OrderAt(trace, j);
    a, i := DueSince(trace[..j]);
    if forall k :: a < k < j ==> !Cancels(trace[k]) {
      DataPhaseIff(trace, a, i);
    }
  }

  lemma Goes(trace: seq<Event>, l: Ledger, e: Event) returns (longer: seq<Event>, next: Ledger)
    requires InOrder(trace) && After(trace) == l && Allowed(l, e)
    ensures longer == trace + [e] && next == Next(l, e) && InOrder(longer) && After(longer) == next
  {
    longer, next := trace + [e], Next(l, e);
    EventNext(trace, e);
  }

  /** Without the conditions it is not so. A request that a bus reset cancels is answered after another transfer. */
  lemma StatusAfterReset() returns (trace: seq<Event>)
    ensures InOrder(trace) && |trace| == 7 && trace[0] == Request(true) && trace[1].BusReset? && IsStatus(trace[6])
    ensures forall k :: 0 < k < 7 ==> !trace[k].Request?
  {
    var l := CLEAR;
    trace, l := Goes([], l, Request(true));
    trace, l := Goes(trace, l, BusReset({}));
    trace, l := Goes(trace, l, Flushed);
    trace, l := Goes(trace, l, Started(1, [7]));
    trace, l := Goes(trace, l, Completed(1, [7]));
    trace, l := Goes(trace, l, Reported({0}, false));
    trace, l := Goes(trace, l, Reported({}, true));
  }

  /** A request is answered before it has had a data phase, since the report was of an earlier transfer. */
  lemma StatusWithoutDataPhase() returns (trace: seq<Event>)
    ensures InOrder(trace) && |trace| == 5 && trace[2] == Request(true) && IsIn0(trace[3]) && IsStatus(trace[4])
    ensures !DataPhase(trace, 2, 4)
  {
    var l := CLEAR;
    trace, l := Goes([], l, Started(1, [7]));
    trace, l := Goes(trace, l, Completed(1, [7]));
    trace, l := Goes(trace, l, Request(true));
    trace, l := Goes(trace, l, Reported({0}, false));
    trace, l := Goes(trace, l, Reported({}, true));
  }

  /** Or its data phase was that of a transfer started before it. */
  lemma StatusOfEarlierTransfer() returns (trace: seq<Event>)
    ensures InOrder(trace) && |trace| == 5 && trace[1] == Request(true) && IsIn0(trace[3]) && IsStatus(trace[4])
    ensures DataPhase(trace, 1, 3) && !OwnDataPhase(trace, 1, 3)
  {
    var l := CLEAR;
    trace, l := Goes([], l, Started(1, [7]));
    trace, l := Goes(trace, l, Request(true));
    trace, l := Goes(trace, l, Completed(1, [7]));
    trace, l := Goes(trace, l, Reported({0}, false));
    trace, l := Goes(trace, l, Reported({}, true));
    assert trace[2].Completed?;
  }
}
