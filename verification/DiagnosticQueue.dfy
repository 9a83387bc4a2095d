/**
 The diagnostic ring queue (processrouter/native/diagnostic_queue.h): any number of producers and one
 writer thread. Each method is a critical section under the lock or a step of the writer between them.
 */
module DiagnosticQueue {
  const QUEUE_LINES := 1024
  const LINE_SIZE := 2048

  // Lines.

  /** A C string ends at its first zero. */
  function UpToZero(s: string): string {
    if s == "" || s[0] == '\0' then "" else [s[0]] + UpToZero(s[1..])
  }

  function Cut(text: string): string {
    UpToZero(if |text| <= LINE_SIZE - 2 then text else text[..LINE_SIZE - 2])
  }

  /** The line kept for a formatted text. */
  function LineOf(text: string): string {
    var line := Cut(text);
    if line == "" || line[|line| - 1] != '\n' then line + "\n" else line
  }

  /** A stored line fits its slot with its terminator, is a C string, and ends in a newline. */
  predicate Stored(line: string) {
    0 < |line| < LINE_SIZE && line[|line| - 1] == '\n' && forall i :: 0 <= i < |line| ==> line[i] != '\0'
  }

  lemma {:induction false} UpToZeroBound(s: string)
    ensures |UpToZero(s)| <= |s| && forall i :: 0 <= i < |UpToZero(s)| ==> UpToZero(s)[i] != '\0'
  {
    if s != "" && s[0] != '\0' { UpToZeroBound(s[1..]); }
  }

  lemma LineStored(text: string)
    ensures Stored(LineOf(text))
  {
    UpToZeroBound(if |text| <= LINE_SIZE - 2 then text else text[..LINE_SIZE - 2]);
  }

  // The ring.

  /** The slot i places after head. */
  function Slot(head: nat, i: nat): nat {
    if head + i < QUEUE_LINES then head + i else head + i - QUEUE_LINES
  }

  lemma SlotIsRemainder(head: nat, i: nat)
    requires head < QUEUE_LINES && i <= QUEUE_LINES
    ensures Slot(head, i) == (head + i) % QUEUE_LINES < QUEUE_LINES
  {
  }

  function Ring(slots: seq<string>, head: nat, count: nat): (r: seq<string>)
    requires |slots| == QUEUE_LINES && head < QUEUE_LINES && count <= QUEUE_LINES
    ensures |r| == count && forall i :: 0 <= i < count ==> r[i] == slots[Slot(head, i)]
  {
    seq(count, i requires 0 <= i < count => slots[Slot(head, i)])
  }

  lemma RingAppend(slots: seq<string>, head: nat, count: nat, line: string)
    requires |slots| == QUEUE_LINES && head < QUEUE_LINES && count < QUEUE_LINES
    ensures Ring(slots[Slot(head, count) := line], head, count + 1) == Ring(slots, head, count) + [line]
  {
  }

  lemma RingRemove(slots: seq<string>, head: nat, count: nat)
    requires |slots| == QUEUE_LINES && head < QUEUE_LINES && 0 < count <= QUEUE_LINES
    ensures Ring(slots, Slot(head, 1), count - 1) == Ring(slots, head, count)[1..] &&
            Ring(slots, head, count)[0] == slots[head]
  {
  }

  /** What the writer thread is doing; while writing it holds a line, if there was one, and a count of dropped lines. */
  datatype Phase = Waiting | Draining | Writing(line: string, dropped: nat) | Finished

  class Queue {
    const lines: array<string>
    var head: nat
    var count: nat
    var dropped: nat
    var quitting: bool
    var event: bool
    var idle: bool
    var phase: Phase
    /**
     Lines accepted, taken from the ring and handed to the writer, in
     order; lines offered, and reported as dropped.
    */
    ghost var accepted: seq<string>
    ghost var taken: seq<string>
    ghost var handed: seq<string>
    ghost var offered: nat
    ghost var reported: nat

    ghost predicate Shape()
      reads this`head, this`count
    {
      lines.Length == QUEUE_LINES && head < QUEUE_LINES && count <= QUEUE_LINES
    }

    /** The lines in the ring, oldest first. */
    ghost function Contents(): seq<string>
      reads this`head, this`count, lines
      requires Shape()
    {
      Ring(lines[..], head, count)
    }

    ghost predicate Valid()
      reads this, lines
    {
      && Shape() && (forall i :: 0 <= i < count ==> Stored(Contents()[i]))
      && accepted == taken + Contents()
      && taken == handed + InHand()
      && offered == |taken| + count + dropped + reported + DroppedInHand()
      && (idle ==> count == 0 && dropped == 0 && !phase.Writing?)
      && (phase == Waiting && !idle ==> event)
      && (phase.Writing? ==> phase.line == "" || Stored(phase.line))
    }

    ghost function InHand(): seq<string>
      reads this`phase
    {
      if phase.Writing? && phase.line != "" then [phase.line] else []
    }

    ghost function DroppedInHand(): nat
      reads this`phase
    {
      if phase.Writing? then phase.dropped else 0
    }

    /** `diagnostic_queue_start`. */
    constructor ()
      ensures Valid() && Contents() == [] && idle && accepted == [] && handed == [] && offered == 0 &&
              reported == 0 && fresh(lines)
    {
      lines := new string[QUEUE_LINES](i => "");
      head, count, dropped, quitting, event, idle, phase := 0, 0, 0, false, false, true, Waiting;
      accepted, taken, handed, offered, reported := [], [], [], 0, 0;
    }

    /** `diagnostic_enqueue`: the line goes to the end, or is counted as dropped when the ring is full. */
    method Enqueue(text: string)
      requires Valid()
      modifies this`count, this`dropped, this`event, this`idle, this`accepted, this`offered, lines
      ensures Valid() && offered == old(offered) + (if quitting then 0 else 1)
      ensures Contents() == if !quitting && old(count) < QUEUE_LINES then old(Contents()) + [LineOf(text)]
              else old(Contents())
      ensures accepted == old(accepted) + if !quitting && old(count) < QUEUE_LINES then [LineOf(text)] else []
      ensures dropped == old(dropped) + if !quitting && old(count) == QUEUE_LINES then 1 else 0
      ensures !quitting ==> event && !idle
    {
      var line := LineOf(text);
      LineStored(text);
      if !quitting {
        offered := offered + 1;
        if count < QUEUE_LINES {
          Append(line);
          accepted := accepted + [line];
        } else {
          dropped := dropped + 1;
        }
        idle, event := false, true;
      }
    }

    method Append(line: string)
      requires Shape() && count < QUEUE_LINES
      modifies this`count, lines
      ensures Shape() && count == old(count) + 1 && Contents() == old(Contents()) + [line]
    {
      SlotIsRemainder(head, count);
      RingAppend(lines[..], head, count, line);
      ghost var before := lines[..];
      var slot := (head + count) % QUEUE_LINES;
      lines[slot] := line;
      count := count + 1;
      assert lines[..] == before[slot := line];
    }

    /** The writer wakes up. */
    method Wake()
      requires Valid() && phase == Waiting && event
      modifies this`event, this`phase
      ensures Valid() && phase == Draining
    {
      event, phase := false, Draining;
    }

    /** The writer under the lock: it finishes, goes idle, or takes the oldest line and the dropped count. */
    method Take()
      requires Valid() && phase == Draining
      modifies this`head, this`count, this`dropped, this`idle, this`phase, this`taken
      ensures Valid()
      ensures quitting ==> phase == Finished && count == old(count)
      ensures !quitting && old(count) == 0 && old(dropped) == 0 ==> phase == Waiting && idle
      ensures !quitting && old(count) > 0 ==>
              phase == Writing(old(Contents())[0], old(dropped)) && Contents() == old(Contents())[1..]
      ensures !quitting && old(count) == 0 && old(dropped) > 0 ==> phase == Writing("", old(dropped)) && dropped == 0
    {
      if quitting {
        phase := Finished;
        return;
      }
      if count == 0 && dropped == 0 {
        idle, phase := true, Waiting;
        return;
      }
      var lost := dropped;
      if count > 0 {
        TakeLine();
      } else {
        dropped, phase := 0, Writing("", lost);
      }
    }

    method TakeLine()
      requires Valid() && phase == Draining && count > 0
      modifies this`head, this`count, this`dropped, this`phase, this`taken
      ensures Valid() && phase == Writing(old(Contents())[0], old(dropped)) && Contents() == old(Contents())[1..] &&
              dropped == 0
    {
      FirstMoves(taken, Contents());
      var line := Remove();
      taken := taken + [line];
      dropped, phase := 0, Writing(line, dropped);
    }

    method Remove() returns (line: string)
      requires Shape() && count > 0
      modifies this`head, this`count
      ensures Shape() && count == old(count) - 1 && line == old(Contents())[0] && Contents() == old(Contents())[1..]
    {
      SlotIsRemainder(head, 1);
      RingRemove(lines[..], head, count);
      line := lines[head];
      head := (head + 1) % QUEUE_LINES;
      count := count - 1;
    }

    /** The writer outside the lock: the line and the note about dropped lines are written. */
    method Write()
      requires Valid() && phase.Writing?
      modifies this`phase, this`handed, this`reported
      ensures Valid() && phase == Draining && handed == old(taken) && reported == old(reported) + old(phase).dropped
    {
      if phase.line != "" { handed := handed + [phase.line]; }
      reported := reported + phase.dropped;
      phase := Draining;
    }

    /** `diagnostic_queue_stop` asks the writer to end. */
    method Quit()
      requires Valid()
      modifies this`quitting, this`event
      ensures Valid() && quitting && event
    {
      quitting, event := true, true;
    }
  }

  lemma FirstMoves(a: seq<string>, b: seq<string>)
    requires b != []
    ensures a + b == a + [b[0]] + b[1..]
  {
  }

  /** A producer's line, or the next step of the writer. */
  datatype Step = Offer(text: string) | Writer | Stop

  method Perform(q: Queue, step: Step)
    requires q.Valid()
    modifies q, q.lines
    ensures q.Valid()
  {
    match step
    case Offer(text) => q.Enqueue(text);
    case Stop => q.Quit();
    case Writer =>
      match q.phase
      case Waiting => if q.event { q.Wake(); }
      case Draining => q.Take();
      case Writing(_, _) => q.Write();
      case Finished =>
  }

  /**
   Any interleaving of producers and the writer: lines come out in the order they went in, every line
   offered is taken, queued, or counted as dropped, idle means that everything accepted was handed over, and
   a writer that waits although there is work has a wake-up pending.
   */
  method Run(q: Queue, steps: seq<Step>)
    requires q.Valid()
    modifies q, q.lines
    ensures q.Valid() && q.count <= QUEUE_LINES
    ensures q.handed <= q.accepted && (q.idle ==> q.handed == q.accepted)
    ensures q.offered == |q.taken| + q.count + q.dropped + q.reported + q.DroppedInHand()
    ensures q.phase == Waiting && (q.count > 0 || q.dropped > 0) ==> q.event
  {
    for i := 0 to |steps|
      invariant q.Valid()
    {
      Perform(q, steps[i]);
    }
  }
}
