/** The geometrically grown ring that holds chunks and waiting reads. */
module StreamQueues {
  import opened Options
  import opened Multiples

  /** A slot of the backing array: `undefined`, or a reference to an entry. */
  datatype Slot<T> = Undefined | Held(value: T)

  predicate DoubledFrom8(n: nat) {
    n == 8 || (n > 8 && n % 2 == 0 && DoubledFrom8(n / 2))
  }

  /** Zero, or eight times a power of two. */
  predicate IsCapacity(n: nat) {
    n == 0 || DoubledFrom8(n)
  }

  lemma DoublingKeepsCapacity(n: nat)
    requires IsCapacity(n)
    ensures IsCapacity(if n > 0 then n * 2 else 8)
  {
  }

  /** The slot of the i-th entry of a window that starts at `head`. */
  function At(head: nat, i: nat, capacity: nat): (r: nat)
    requires capacity > 0
    ensures r < capacity
  {
    (head + i) % capacity
  }

  lemma Wraps(head: nat, i: nat, capacity: nat)
    requires head < capacity && i <= capacity
    ensures At(head, i, capacity) == if head + i < capacity then head + i else head + i - capacity
  {
    DivisionUnique(head + i, capacity, if head + i < capacity then 0 else 1,
                   if head + i < capacity then head + i else head + i - capacity);
  }

  /** The slots of a window are those from `head` on, around the end of the array. */
  predicate InWindow(k: nat, head: nat, length: nat, capacity: nat) {
    if head <= k then k - head < length else k + capacity - head < length
  }

  /** Exactly the slots of the window hold references. */
  predicate Live<T>(slots: seq<Slot<T>>, head: nat, length: nat) {
    && length <= |slots|
    && (if slots == [] then head == 0 else head < |slots|)
    && (forall k {:trigger slots[k]} | 0 <= k < |slots| :: slots[k].Held? <==> InWindow(k, head, length, |slots|))
  }

  /** The i-th live entry. */
  function Nth<T>(slots: seq<Slot<T>>, head: nat, length: nat, i: nat): T
    requires Live(slots, head, length) && i < length
  {
    Wraps(head, i, |slots|);
    slots[At(head, i, |slots|)].value
  }

  function Window<T>(slots: seq<Slot<T>>, head: nat, length: nat): (s: seq<T>)
    requires Live(slots, head, length)
    ensures |s| == length
  {
    seq(length, i requires 0 <= i < length => Nth(slots, head, length, i))
  }

  lemma WindowAt<T>(slots: seq<Slot<T>>, head: nat, length: nat, i: nat)
    requires Live(slots, head, length) && i < length
    ensures var p := if head + i < |slots| then head + i else head + i - |slots|;
            slots[p] == Held(Window(slots, head, length)[i])
  {
    Wraps(head, i, |slots|);
    hide At;
  }

  /** Filling the slot after the window appends to it. */
  lemma PushedWindow<T>(slots: seq<Slot<T>>, head: nat, length: nat, value: T)
    requires Live(slots, head, length) && length < |slots|
    ensures var p := At(head, length, |slots|);
            var pushed := slots[p := Held(value)];
            && Live(pushed, head, length + 1)
            && Window(pushed, head, length + 1) == Window(slots, head, length) + [value]
  {
    Wraps(head, length, |slots|);
    var p := At(head, length, |slots|);
    var pushed := slots[p := Held(value)];
    hide At;
    assert Live(pushed, head, length + 1);
    forall i | 0 <= i <= length
      ensures Window(pushed, head, length + 1)[i] == (Window(slots, head, length) + [value])[i]
    {
      WindowAt(pushed, head, length + 1, i);
      if i < length {
        WindowAt(slots, head, length, i);
      }
      hide Live, Window;
    }
  }

  /** Emptying the first slot of the window drops its first entry. */
  lemma ShiftedWindow<T>(slots: seq<Slot<T>>, head: nat, length: nat)
    requires Live(slots, head, length) && length > 0
    ensures slots[head] == Held(Window(slots, head, length)[0])
    ensures var next := if length > 1 then At(head, 1, |slots|) else 0;
            var shifted := slots[head := Undefined];
            && Live(shifted, next, length - 1)
            && Window(shifted, next, length - 1) == Window(slots, head, length)[1..]
  {
    Wraps(head, 1, |slots|);
    WindowAt(slots, head, length, 0);
    var next := if length > 1 then At(head, 1, |slots|) else 0;
    var shifted := slots[head := Undefined];
    hide At;
    assert Live(shifted, next, length - 1);
    forall i | 0 <= i < length - 1
      ensures Window(shifted, next, length - 1)[i] == Window(slots, head, length)[1..][i]
    {
      WindowAt(shifted, next, length - 1, i);
      WindowAt(slots, head, length, i + 1);
      hide Live, Window;
    }
  }

  /** A sequence at the front of an otherwise empty array. */
  lemma FrontWindow<T>(slots: seq<Slot<T>>, s: seq<T>)
    requires |s| <= |slots|
    requires forall k | 0 <= k < |s| :: slots[k] == Held(s[k])
    requires forall k | |s| <= k < |slots| :: slots[k] == Undefined
    ensures Live(slots, 0, |s|) && Window(slots, 0, |s|) == s
  {
    assert Live(slots, 0, |s|);
    forall i | 0 <= i < |s|
      ensures Window(slots, 0, |s|)[i] == s[i]
    {
      WindowAt(slots, 0, |s|, i);
      hide Window;
    }
  }

  lemma Fits<T>(slots: seq<Slot<T>>, head: nat, length: nat)
    requires Live(slots, head, length)
    ensures length <= |slots| && (slots != [] ==> head < |slots|)
  {
  }

  class StreamQueue<T> {
    var items: array<Slot<T>>
    var head: nat
    var length: nat

    /** Exactly the live window holds references. */
    ghost predicate Valid()
      reads this, items
    {
      IsCapacity(items.Length) && Live(items[..], head, length)
    }

    ghost function Contents(): (s: seq<T>)
      requires Valid()
      reads this, items
      ensures |s| == length
    {
      Window(items[..], head, length)
    }

    constructor ()
      ensures Valid() && fresh(items) && Contents() == []
    {
      items := new Slot<T>[0];
      head := 0;
      length := 0;
    }

    method Peek() returns (r: Option<T>)
      requires Valid()
      ensures r == if Contents() == [] then None else Some(Contents()[0])
    {
      if length == 0 {
        return None;
      }
      WindowAt(items[..], head, length, 0);
      r := Some(items[head].value);
    }

    /** Move the live window to the front of a larger array. */
    method Grow()
      requires Valid() && length == items.Length
      modifies this
      ensures Valid() && fresh(items) && length == old(length) && length < items.Length
      ensures Contents() == old(Contents())
    {
      DoublingKeepsCapacity(items.Length);
      hide IsCapacity;
      var wider := new Slot<T>[if items.Length > 0 then items.Length * 2 else 8](_ => Undefined);
      ghost var was := Contents();
      var index := 0;
      while index < length
        modifies wider
        invariant index <= length
        invariant forall k | 0 <= k < index :: wider[k] == Held(was[k])
        invariant forall k | index <= k < wider.Length :: wider[k] == Undefined
      {
        Wraps(head, index, items.Length);
        WindowAt(items[..], head, length, index);
        hide At, Window;
        wider[index] := items[At(head, index, items.Length)];
        index := index + 1;
      }
      items := wider;
      head := 0;
      FrontWindow(items[..], was);
    }

    method Push(value: T)
      requires Valid()
      modifies this, items
      ensures Valid() && (items == old(items) || fresh(items))
      ensures Contents() == old(Contents()) + [value]
    {
      hide IsCapacity, Live, Window;
      if length == items.Length {
        Grow();
      }
      Fits(items[..], head, length);
      PushedWindow(items[..], head, length, value);
      ghost var slots := items[..];
      items[At(head, length, items.Length)] := Held(value);
      length := length + 1;
      assert items[..] == slots[At(head, length - 1, items.Length) := Held(value)];
    }

    method Shift() returns (r: Option<T>)
      requires Valid()
      modifies this, items
      ensures Valid() && items == old(items)
      ensures old(Contents()) == [] ==> r == None && Contents() == []
      ensures old(Contents()) != [] ==> r == Some(old(Contents())[0]) && Contents() == old(Contents())[1..]
    {
      if length == 0 {
        return None;
      }
      Fits(items[..], head, length);
      hide IsCapacity, Live, Window;
      ShiftedWindow(items[..], head, length);
      ghost var slots := items[..];
      r := Some(items[head].value);
      items[head] := Undefined;
      assert items[..] == slots[head := Undefined];
      length := length - 1;
      head := if length > 0 then At(head, 1, items.Length) else 0;
    }

    method Clear()
      requires Valid()
      modifies this
      ensures Valid() && fresh(items) && Contents() == []
    {
      items := new Slot<T>[0];
      head := 0;
      length := 0;
    }
  }

  // ---- any mix of operations ------------------------------------------------

  datatype Operation<T> = PushIt(value: T) | ShiftIt | PeekIt | ClearIt

  /** The sequence a list of operations leaves. */
  function After<T>(s: seq<T>, op: Operation<T>): seq<T> {
    match op
    case PushIt(value) => s + [value]
    case ShiftIt => if s == [] then [] else s[1..]
    case PeekIt => s
    case ClearIt => []
  }

  /** What an operation on a plain sequence answers. */
  function Answer<T>(s: seq<T>, op: Operation<T>): Option<T> {
    if (op.ShiftIt? || op.PeekIt?) && s != [] then Some(s[0]) else None
  }

  function Answers<T>(s: seq<T>, ops: seq<Operation<T>>): seq<Option<T>>
    decreases |ops|
  {
    if ops == [] then [] else [Answer(s, ops[0])] + Answers(After(s, ops[0]), ops[1..])
  }

  method PerformOne<T>(queue: StreamQueue<T>, op: Operation<T>) returns (answer: Option<T>)
    requires queue.Valid()
    modifies queue, queue.items
    ensures queue.Valid() && (queue.items == old(queue.items) || fresh(queue.items))
    ensures queue.Contents() == After(old(queue.Contents()), op)
    ensures answer == Answer(old(queue.Contents()), op)
  {
    answer := None;
    match op {
      case PushIt(value) => queue.Push(value);
      case ShiftIt => answer := queue.Shift();
      case PeekIt => answer := queue.Peek();
      case ClearIt => queue.Clear();
    }
  }

  lemma NextAnswer<T>(answers: seq<Option<T>>, s: seq<T>, ops: seq<Operation<T>>)
    requires ops != []
    ensures answers + Answers(s, ops) == answers + [Answer(s, ops[0])] + Answers(After(s, ops[0]), ops[1..])
  {
  }

  /** The ring answers any list of operations as an unbounded sequence would. */
  method Perform<T>(ops: seq<Operation<T>>) returns (answers: seq<Option<T>>)
    ensures answers == Answers([], ops)
  {
    var queue := new StreamQueue<T>();
    answers := [];
    var i := 0;
    while i < |ops|
      invariant i <= |ops| && queue.Valid() && fresh(queue) && fresh(queue.items)
      invariant answers + Answers(queue.Contents(), ops[i..]) == Answers([], ops)
    {
      NextAnswer(answers, queue.Contents(), ops[i..]);
      assert ops[i..][1..] == ops[i + 1..];
      var answer := PerformOne(queue, ops[i]);
      answers := answers + [answer];
      i := i + 1;
      hide Answers, After, Answer;
    }
  }
}
