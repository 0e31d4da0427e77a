/**
 * The bracket-depth element splitter of `buildSystemData`: it reads the input
 * one character at a time, skips everything up to the first `[` (the wrapper
 * array), counts `{`/`[` and `}`/`]` as depth, and copies characters into a
 * fixed rune buffer until the depth returns to zero. Each such chunk is handed
 * to the JSON decoder; decoded records are appended to a singly linked list,
 * which is finally copied into an array.
 *
 * The decoder is a parameter (`decode`). Brackets inside JSON string literals
 * are counted like any other bracket, as in the source.
 */
module Splitter {
  import opened Types

  /** Capacity of the rune buffer in the source. */
  const BufferSize: nat := 30_000_000

  // ---------------------------------------------------------------------
  // Specification: the automaton on values
  // ---------------------------------------------------------------------

  /** Depth change caused by one character. */
  function Delta(c: char): int
  {
    if c == '{' || c == '[' then 1
    else if c == '}' || c == ']' then -1
    else 0
  }

  /** Net bracket depth of a text. */
  function Depth(s: seq<char>): int
  {
    if s == [] then 0 else Depth(s[..|s| - 1]) + Delta(s[|s| - 1])
  }

  /** A text with no bracket in it (commas, blanks, numbers, ...). */
  predicate NoBrackets(s: seq<char>)
  {
    forall i :: 0 <= i < |s| ==> Delta(s[i]) == 0
  }

  /**
   * The shape of one emitted element: at least two characters, balanced,
   * and no proper non-empty prefix is balanced (so it starts and ends with a
   * bracket).
   */
  predicate ChunkShaped(c: seq<char>)
  {
    |c| > 1 && Depth(c) == 0 &&
    forall k :: 0 < k < |c| ==> Depth(c[..k]) != 0
  }

  function Max(a: nat, b: nat): nat { if a < b then b else a }

  /**
   * The splitter's state after a prefix of the input: the wrapper flag, the
   * depth counter, the pending buffer, the chunks emitted so far, and the
   * largest number of characters the buffer ever had to hold.
   */
  datatype ScanState = ScanState(
    inWrapper: bool,
    depth: int,
    buf: seq<char>,
    chunks: seq<seq<char>>,
    peak: nat)

  const Start := ScanState(false, 0, [], [], 0)

  /** One character of `buildSystemData`'s read loop. */
  function Step(st: ScanState, c: char): ScanState
  {
    if c == '[' && !st.inWrapper then st.(inWrapper := true)
    else if !st.inWrapper then st
    else
      var d := st.depth + Delta(c);
      if d == 0 && |st.buf| == 0 then st.(depth := d)
      else
        var buf := st.buf + [c];
        var peak := Max(st.peak, |buf|);
        if d == 0 then st.(depth := d, buf := [], chunks := st.chunks + [buf], peak := peak)
        else st.(depth := d, buf := buf, peak := peak)
  }

  /** The state after reading `s` from `st`. */
  function Run(st: ScanState, s: seq<char>): ScanState
  {
    if s == [] then st else Step(Run(st, s[..|s| - 1]), s[|s| - 1])
  }

  function Scan(s: seq<char>): ScanState
  {
    Run(Start, s)
  }

  /** The successfully decoded chunks, in stream order. */
  function DecodeAll(chunks: seq<seq<char>>, decode: seq<char> -> Option<EliteSystemJson>): (r: seq<EliteSystemJson>)
    ensures |r| <= |chunks|
    ensures (forall i :: 0 <= i < |chunks| ==> decode(chunks[i]).Some?) ==>
              |r| == |chunks| && forall i :: 0 <= i < |r| ==> Some(r[i]) == decode(chunks[i])
  {
    if chunks == [] then []
    else
      var prefix := DecodeAll(chunks[..|chunks| - 1], decode);
      match decode(chunks[|chunks| - 1])
      case Some(v) => prefix + [v]
      case None => prefix
  }

  lemma ScanSnoc(s: seq<char>, i: nat)
    requires i < |s|
    ensures Scan(s[..i + 1]) == Step(Scan(s[..i]), s[i])
  {
    assert s[..i + 1][..i] == s[..i];
  }

  lemma DecodeAllSnoc(chunks: seq<seq<char>>, c: seq<char>, decode: seq<char> -> Option<EliteSystemJson>)
    ensures DecodeAll(chunks + [c], decode) ==
              DecodeAll(chunks, decode) + (match decode(c) case Some(v) => [v] case None => [])
  {
    assert (chunks + [c])[..|chunks|] == chunks;
  }

  /** The chunk list of one step: the completed element, if any. */
  function Emitted(emitted: Option<seq<char>>): seq<seq<char>>
  {
    match emitted
    case None => []
    case Some(text) => [text]
  }

  lemma DecodeAllEmitted(chunks: seq<seq<char>>, emitted: Option<seq<char>>,
                         decode: seq<char> -> Option<EliteSystemJson>)
    ensures DecodeAll(chunks + Emitted(emitted), decode) ==
              DecodeAll(chunks, decode) + DecodeAll(Emitted(emitted), decode)
  {
    if emitted.Some? {
      DecodeAllSnoc(chunks, emitted.value, decode);
      DecodeAllSnoc([], emitted.value, decode);
    } else {
      assert chunks + Emitted(emitted) == chunks;
    }
  }

  // ---------------------------------------------------------------------
  // Properties of the automaton
  // ---------------------------------------------------------------------

  /** Reading `a` then `b` is reading `a + b`. */
  lemma {:induction false} RunConcat(st: ScanState, a: seq<char>, b: seq<char>)
    ensures Run(st, a + b) == Run(Run(st, a), b)
    decreases |b|
  {
    if b == [] {
      assert a + b == a;
    } else {
      var b' := b[..|b| - 1];
      assert (a + b)[..|a + b| - 1] == a + b';
      RunConcat(st, a, b');
    }
  }

  /** Characters before the first `[` change nothing. */
  lemma {:induction false} BeforeWrapperIgnored(pre: seq<char>)
    requires '[' !in pre
    ensures Run(Start, pre) == Start
    decreases |pre|
  {
    if pre != [] {
      BeforeWrapperIgnored(pre[..|pre| - 1]);
    }
  }

  /** The first `[` only opens the wrapper: it is not part of any element. */
  lemma WrapperOpened(pre: seq<char>, rest: seq<char>)
    requires '[' !in pre
    ensures Scan(pre + ['['] + rest) == Run(Start.(inWrapper := true), rest)
  {
    BeforeWrapperIgnored(pre);
    RunConcat(Start, pre, ['['] + rest);
    assert pre + ['['] + rest == pre + (['['] + rest);
    RunConcat(Run(Start, pre), ['['], rest);
    assert Run(Start, ['[']) == Step(Start, '[') by {
      assert ['['][..0] == [];
    }
  }

  lemma DepthSnoc(s: seq<char>, c: char)
    ensures Depth(s + [c]) == Depth(s) + Delta(c)
  {
    assert (s + [c])[..|s|] == s;
  }

  /**
   * The pending buffer of a coherent state: the depth counter is the
   * buffer's net depth, the buffer is empty exactly at depth 0, and no
   * non-empty prefix of it is balanced.
   */
  ghost predicate PendingOk(depth: int, buf: seq<char>)
  {
    depth == Depth(buf) && (|buf| == 0 <==> depth == 0) &&
    forall k :: 0 < k <= |buf| ==> Depth(buf[..k]) != 0
  }

  /** Every emitted chunk has the element shape and fits in `peak`. */
  ghost predicate ChunksFit(chunks: seq<seq<char>>, peak: nat)
  {
    forall i :: 0 <= i < |chunks| ==> ChunkShaped(chunks[i]) && |chunks[i]| <= peak
  }

  /** The invariant the automaton keeps. */
  ghost predicate Coherent(st: ScanState)
  {
    (!st.inWrapper ==> st == Start) &&
    PendingOk(st.depth, st.buf) &&
    |st.buf| <= st.peak &&
    ChunksFit(st.chunks, st.peak)
  }

  lemma PendingGrows(depth: int, buf: seq<char>, c: char)
    requires PendingOk(depth, buf) && depth + Delta(c) != 0
    ensures PendingOk(depth + Delta(c), buf + [c])
  {
    var buf' := buf + [c];
    DepthSnoc(buf, c);
    assert buf'[..|buf'|] == buf';
    forall k | 0 < k <= |buf'|
      ensures Depth(buf'[..k]) != 0
    {
      if k <= |buf| {
        assert buf'[..k] == buf[..k];
      }
    }
  }

  lemma PendingCloses(depth: int, buf: seq<char>, c: char)
    requires PendingOk(depth, buf) && |buf| > 0 && depth + Delta(c) == 0
    ensures ChunkShaped(buf + [c])
  {
    var buf' := buf + [c];
    DepthSnoc(buf, c);
    forall k | 0 < k < |buf'|
      ensures Depth(buf'[..k]) != 0
    {
      assert buf'[..k] == buf[..k];
    }
  }

  lemma StepCoherent(st: ScanState, c: char)
    requires Coherent(st)
    ensures Coherent(Step(st, c))
    ensures Step(st, c).peak >= st.peak
  {
    if st.inWrapper {
      var d := st.depth + Delta(c);
      if !(d == 0 && |st.buf| == 0) {
        var buf := st.buf + [c];
        var peak := Max(st.peak, |buf|);
        if d == 0 {
          PendingCloses(st.depth, st.buf, c);
          var st' := st.(depth := d, buf := [], chunks := st.chunks + [buf], peak := peak);
          assert Step(st, c) == st';
          assert PendingOk(st'.depth, st'.buf);
          assert ChunksFit(st'.chunks, st'.peak) by {
            forall i | 0 <= i < |st'.chunks|
              ensures ChunkShaped(st'.chunks[i]) && |st'.chunks[i]| <= st'.peak
            {
              if i < |st.chunks| {
                assert st'.chunks[i] == st.chunks[i];
              }
            }
          }
        } else {
          PendingGrows(st.depth, st.buf, c);
          assert Step(st, c) == st.(depth := d, buf := buf, peak := peak);
        }
      } else {
        assert Step(st, c) == st.(depth := d);
      }
    } else if c == '[' {
      assert Step(st, c) == Start.(inWrapper := true);
    }
  }

  /** Every state reached from the start is coherent; the peak never shrinks. */
  lemma {:induction false} RunCoherent(st: ScanState, s: seq<char>)
    requires Coherent(st)
    ensures Coherent(Run(st, s))
    ensures Run(st, s).peak >= st.peak
    decreases |s|
  {
    if s != [] {
      RunCoherent(st, s[..|s| - 1]);
      StepCoherent(Run(st, s[..|s| - 1]), s[|s| - 1]);
    }
  }

  /**
   * Every emitted chunk is a complete element: non-empty, balanced, ends at
   * the first return to depth 0, and fits the peak buffer occupancy.
   */
  lemma ChunksAreElements(s: seq<char>)
    ensures forall i :: 0 <= i < |Scan(s).chunks| ==>
              ChunkShaped(Scan(s).chunks[i]) && |Scan(s).chunks[i]| <= Scan(s).peak
  {
    RunCoherent(Start, s);
  }

  /** The buffer's peak occupancy can only grow as more input is read. */
  lemma PeakMonotone(s: seq<char>, n: nat)
    requires n <= |s|
    ensures Scan(s[..n]).peak <= Scan(s).peak
  {
    assert s == s[..n] + s[n..];
    RunConcat(Start, s[..n], s[n..]);
    RunCoherent(Start, s[..n]);
    RunCoherent(Scan(s[..n]), s[n..]);
  }

  /** Between elements, bracket-free separators are dropped. */
  lemma {:induction false} SeparatorSkipped(st: ScanState, sep: seq<char>)
    requires st.inWrapper && st.depth == 0 && st.buf == []
    requires NoBrackets(sep)
    ensures Run(st, sep) == st
    decreases |sep|
  {
    if sep != [] {
      SeparatorSkipped(st, sep[..|sep| - 1]);
    }
  }

  /** Reading a proper prefix of an element only fills the buffer. */
  lemma {:induction false} ElementPrefix(st: ScanState, e: seq<char>, k: nat)
    requires st.inWrapper && st.depth == 0 && st.buf == []
    requires ChunkShaped(e) && k < |e|
    ensures Run(st, e[..k]) == st.(depth := Depth(e[..k]), buf := e[..k], peak := Max(st.peak, k))
    decreases k
  {
    if k > 0 {
      var prev := e[..k - 1];
      ElementPrefix(st, e, k - 1);
      var mid := st.(depth := Depth(prev), buf := prev, peak := Max(st.peak, k - 1));
      assert e[..k][..k - 1] == prev;
      assert e[..k] == prev + [e[k - 1]];
      assert Run(st, e[..k]) == Step(mid, e[k - 1]);
      DepthSnoc(prev, e[k - 1]);
      assert Depth(e[..k]) != 0;
      assert Step(mid, e[k - 1]) == mid.(depth := Depth(e[..k]), buf := prev + [e[k - 1]], peak := Max(st.peak, k));
    }
  }

  /** A whole element, preceded by a separator, is emitted as one chunk. */
  lemma ElementEmitted(st: ScanState, sep: seq<char>, e: seq<char>)
    requires st.inWrapper && st.depth == 0 && st.buf == []
    requires NoBrackets(sep) && ChunkShaped(e)
    ensures Run(st, sep + e) == st.(chunks := st.chunks + [e], peak := Max(st.peak, |e|))
  {
    RunConcat(st, sep, e);
    SeparatorSkipped(st, sep);
    var n := |e| - 1;
    ElementPrefix(st, e, n);
    var mid := st.(depth := Depth(e[..n]), buf := e[..n], peak := Max(st.peak, n));
    assert Run(st, e[..n]) == mid;
    assert e == e[..n] + [e[n]];
    DepthSnoc(e[..n], e[n]);
    assert mid.depth + Delta(e[n]) == 0;
    assert Run(st, e) == Step(mid, e[n]);
  }

  /** A separator followed by an element. */
  datatype Item = Item(sep: seq<char>, element: seq<char>)

  function Layout(items: seq<Item>): seq<char>
  {
    if items == [] then [] else Layout(items[..|items| - 1]) + items[|items| - 1].sep + items[|items| - 1].element
  }

  function Elements(items: seq<Item>): (r: seq<seq<char>>)
    ensures |r| == |items| && forall i :: 0 <= i < |items| ==> r[i] == items[i].element
  {
    if items == [] then [] else Elements(items[..|items| - 1]) + [items[|items| - 1].element]
  }

  function MaxLength(items: seq<Item>): nat
  {
    if items == [] then 0 else Max(MaxLength(items[..|items| - 1]), |items[|items| - 1].element|)
  }

  predicate WellLaidOut(items: seq<Item>)
  {
    forall i :: 0 <= i < |items| ==> NoBrackets(items[i].sep) && ChunkShaped(items[i].element)
  }

  lemma {:induction false} LayoutRun(st: ScanState, items: seq<Item>)
    requires st.inWrapper && st.depth == 0 && st.buf == []
    requires WellLaidOut(items)
    ensures Run(st, Layout(items)) == st.(chunks := st.chunks + Elements(items), peak := Max(st.peak, MaxLength(items)))
    decreases |items|
  {
    if items == [] {
      assert st.chunks + [] == st.chunks;
    } else {
      var front := items[..|items| - 1];
      var last := items[|items| - 1];
      LayoutRun(st, front);
      var mid := Run(st, Layout(front));
      assert Layout(items) == Layout(front) + (last.sep + last.element);
      RunConcat(st, Layout(front), last.sep + last.element);
      ElementEmitted(mid, last.sep, last.element);
      assert st.chunks + Elements(front) + [last.element] == st.chunks + Elements(items);
    }
  }

  /**
   * Round trip: an input made of a bracket-free preamble, the wrapper `[`,
   * N elements separated by bracket-free text, and the closing `]` splits
   * into exactly those N elements, in order. The buffer has to hold the
   * longest element (and the closing bracket, which is buffered, never
   * emitted).
   */
  lemma SplitRoundTrip(pre: seq<char>, items: seq<Item>)
    requires '[' !in pre && WellLaidOut(items)
    ensures Scan(pre + ['['] + Layout(items) + [']']).chunks == Elements(items)
    ensures Scan(pre + ['['] + Layout(items) + [']']).peak == Max(MaxLength(items), 1)
  {
    var entered := Start.(inWrapper := true);
    assert pre + ['['] + Layout(items) + [']'] == pre + ['['] + (Layout(items) + [']']);
    WrapperOpened(pre, Layout(items) + [']']);
    RunConcat(entered, Layout(items), [']']);
    LayoutRun(entered, items);
    assert [] + Elements(items) == Elements(items);
    assert [']'][..0] == [];
  }

  // ---------------------------------------------------------------------
  // The linked list of decoded records
  // ---------------------------------------------------------------------

  class SystemEntry {
    var value: EliteSystemJson
    var next: SystemEntry?

    constructor (v: EliteSystemJson)
      ensures value == v && next == null
    {
      value := v;
      next := null;
    }
  }

  /** A singly linked list with a pointer to its first and its last entry. */
  class SystemList {
    var first: SystemEntry?
    var head: SystemEntry?
    ghost var Contents: seq<EliteSystemJson>
    ghost var Nodes: seq<SystemEntry>
    ghost var Repr: set<SystemEntry>

    ghost predicate Valid()
      reads this, Repr
    {
      (forall i :: 0 <= i < |Nodes| ==> Nodes[i] in Repr) &&
      |Nodes| == |Contents| &&
      (forall i :: 0 <= i < |Nodes| ==> Nodes[i].value == Contents[i]) &&
      (forall i :: 0 <= i < |Nodes| - 1 ==> Nodes[i].next == Nodes[i + 1]) &&
      (if Nodes == [] then first == null && head == null
       else first == Nodes[0] && head == Nodes[|Nodes| - 1] && head.next == null)
    }

    constructor ()
      ensures Valid() && Contents == [] && fresh(Repr)
    {
      first, head := null, null;
      Contents, Nodes, Repr := [], [], {};
    }

    /** Links a new entry after the last one. */
    method Append(v: EliteSystemJson)
      requires Valid()
      modifies this, head
      ensures Valid() && Contents == old(Contents) + [v]
      ensures fresh(Repr - old(Repr)) && fresh(head)
    {
      var entry := new SystemEntry(v);
      if first == null {
        first := entry;
        head := entry;
      } else {
        // Only the last entry has no successor, so no other entry is `head`.
        forall i | 0 <= i < |Nodes| - 1
          ensures Nodes[i] != head
        {
          assert Nodes[i].next == Nodes[i + 1];
        }
        head.next := entry;
        head := entry;
      }
      Nodes := Nodes + [entry];
      Contents := Contents + [v];
      Repr := Repr + {entry};
    }

    /** Walks the list from `first`, copying each value into a new array. */
    method ToArray(count: nat) returns (returnArray: array<EliteSystemJson>)
      requires Valid() && count == |Contents|
      ensures returnArray[..] == Contents
    {
      returnArray := new EliteSystemJson[count];
      var index := 0;
      var pointer := first;
      while pointer != null
        invariant Valid()
        invariant 0 <= index <= |Nodes|
        invariant pointer == if index < |Nodes| then Nodes[index] else null
        invariant returnArray[..index] == Contents[..index]
        decreases |Nodes| - index
      {
        returnArray[index] := pointer.value;
        index := index + 1;
        pointer := pointer.next;
      }
      assert returnArray[..] == returnArray[..index];
    }
  }

  /** Copies the first `n` buffered characters out (the `stringArray` loop). */
  method CopyPrefix(buffer: array<char>, n: nat) returns (s: seq<char>)
    requires n <= buffer.Length
    ensures s == buffer[..n]
  {
    var stringArray := new char[n];
    var k := 0;
    while k < n
      invariant 0 <= k <= n
      invariant stringArray[..k] == buffer[..k]
    {
      stringArray[k] := buffer[k];
      k := k + 1;
    }
    s := stringArray[..];
  }

  // ---------------------------------------------------------------------
  // The splitter itself
  // ---------------------------------------------------------------------

  datatype ParseResult =
    | Parsed(systems: seq<EliteSystemJson>)
    | BufferOverflow   // the write past the buffer's end panics in the source

  /**
   * The character-level state machine of `buildSystemData`'s read loop: the
   * wrapper flag, the depth counter, and the rune buffer with its write
   * pointer. `State` is the abstract automaton state it implements.
   */
  class ElementSplitter {
    const buffer: array<char>
    var nexCharPtr: nat
    var currentDepth: int
    var isInWrapperArray: bool
    ghost var State: ScanState

    ghost predicate Valid()
      reads this, buffer
    {
      State.peak <= buffer.Length &&
      isInWrapperArray == State.inWrapper &&
      currentDepth == State.depth &&
      nexCharPtr == |State.buf| <= buffer.Length &&
      buffer[..nexCharPtr] == State.buf
    }

    constructor (capacity: nat)
      ensures Valid() && fresh(buffer)
      ensures State == Start && buffer.Length == capacity
    {
      buffer := new char[capacity];
      nexCharPtr, currentDepth, isInWrapperArray := 0, 0, false;
      State := Start;
    }

    /**
     * One iteration of the read loop, up to the decoder call: `overflow` is
     * the out-of-range write of the source, which happens exactly when the
     * automaton's buffer would need more than the capacity; otherwise
     * `emitted` is the element completed by `ch`, if any.
     */
    method Feed(ch: char) returns (overflow: bool, emitted: Option<seq<char>>)
      requires Valid()
      modifies this, buffer
      ensures overflow <==> Step(old(State), ch).peak > buffer.Length
      ensures !overflow ==> Valid() && State == Step(old(State), ch)
      ensures !overflow ==> State.chunks == old(State).chunks + Emitted(emitted)
    {
      ghost var before := State;
      overflow, emitted := false, None;
      if ch == '[' && !isInWrapperArray {
        isInWrapperArray := true;
        State := before.(inWrapper := true);
        return;
      }
      // (The source's branch for `]` at depth 0 is an empty TODO.)
      if !isInWrapperArray {
        return;
      }

      // `{`/`[` add one, `}`/`]` subtract one.
      currentDepth := currentDepth + Delta(ch);

      var buildString := false;
      if currentDepth == 0 {
        if nexCharPtr == 0 {
          State := before.(depth := currentDepth);
          return;
        }
        buildString := true;
      }

      if nexCharPtr == buffer.Length {
        return true, None;
      }
      buffer[nexCharPtr] := ch;
      nexCharPtr := nexCharPtr + 1;
      ghost var peak := Max(before.peak, nexCharPtr);
      assert buffer[..nexCharPtr] == before.buf + [ch];

      if buildString {
        var asString := CopyPrefix(buffer, nexCharPtr);
        nexCharPtr := 0;
        emitted := Some(asString);
        State := before.(depth := 0, buf := [], chunks := before.chunks + [asString], peak := peak);
      } else {
        State := before.(depth := currentDepth, buf := buffer[..nexCharPtr], peak := peak);
      }
    }
  }

  /**
   * The end of an element in the read loop: when an element was completed,
   * decode it and, if that succeeds, count it and link it into the list.
   */
  method Collect(allSystems: SystemList, systemsParsedCounter: nat, emitted: Option<seq<char>>,
                 decode: seq<char> -> Option<EliteSystemJson>)
    returns (counter: nat)
    requires allSystems.Valid() && systemsParsedCounter == |allSystems.Contents|
    modifies allSystems, allSystems.head
    ensures allSystems.Valid() && fresh(allSystems.Repr - old(allSystems.Repr))
    ensures allSystems.head == old(allSystems.head) || fresh(allSystems.head)
    ensures allSystems.Contents == old(allSystems.Contents) + DecodeAll(Emitted(emitted), decode)
    ensures counter == |allSystems.Contents|
  {
    counter := systemsParsedCounter;
    if emitted.Some? {
      DecodeAllSnoc([], emitted.value, decode);
      var jsonData := decode(emitted.value);
      if jsonData.Some? {
        counter := counter + 1;
        allSystems.Append(jsonData.value);
      }
    }
  }

  /** One iteration of the read loop of `buildSystemData`. */
  method ReadRune(splitter: ElementSplitter, allSystems: SystemList, systemsParsedCounter: nat, ch: char,
                  decode: seq<char> -> Option<EliteSystemJson>)
    returns (overflow: bool, counter: nat)
    requires splitter.Valid() && allSystems.Valid()
    requires allSystems.Contents == DecodeAll(splitter.State.chunks, decode)
    requires systemsParsedCounter == |allSystems.Contents|
    modifies splitter, splitter.buffer, allSystems, allSystems.head
    ensures overflow <==> Step(old(splitter.State), ch).peak > splitter.buffer.Length
    ensures !overflow ==> splitter.Valid() && splitter.State == Step(old(splitter.State), ch)
    ensures !overflow ==> allSystems.Valid() && allSystems.Contents == DecodeAll(splitter.State.chunks, decode)
    ensures counter == |allSystems.Contents|
    ensures allSystems.head == old(allSystems.head) || fresh(allSystems.head)
  {
    ghost var before := splitter.State;
    var emitted;
    overflow, emitted := splitter.Feed(ch);
    counter := systemsParsedCounter;
    if overflow {
      return;
    }
    ghost var after := splitter.State;
    counter := Collect(allSystems, systemsParsedCounter, emitted, decode);
    DecodeAllEmitted(before.chunks, emitted, decode);
    assert splitter.State == after;
  }

  /**
   * `buildSystemData` with the file replaced by `input` and the buffer size
   * by `capacity`. The result is the decoded elements in stream order, or an
   * overflow exactly when some element (or the trailing text after the
   * wrapper closes) needs more than `capacity` characters; nothing is ever
   * truncated. Elements the decoder rejects are skipped.
   */
  method BuildSystemData(input: seq<char>, capacity: nat, decode: seq<char> -> Option<EliteSystemJson>)
    returns (r: ParseResult)
    ensures r.BufferOverflow? <==> Scan(input).peak > capacity
    ensures r.Parsed? ==> r.systems == DecodeAll(Scan(input).chunks, decode)
  {
    var systemsParsedCounter := 0;
    var allSystems := new SystemList();
    var splitter := new ElementSplitter(capacity);

    var i := 0;
    while i < |input|
      invariant 0 <= i <= |input|
      invariant splitter.Valid() && fresh(splitter) && fresh(splitter.buffer)
      invariant splitter.buffer.Length == capacity
      invariant splitter.State == Scan(input[..i])
      invariant allSystems.Valid() && fresh(allSystems)
      invariant allSystems.head == null || fresh(allSystems.head)
      invariant allSystems.Contents == DecodeAll(splitter.State.chunks, decode)
      invariant systemsParsedCounter == |allSystems.Contents|
    {
      ScanSnoc(input, i);
      var overflow;
      overflow, systemsParsedCounter := ReadRune(splitter, allSystems, systemsParsedCounter, input[i], decode);
      i := i + 1;
      if overflow {
        PeakMonotone(input, i);
        return BufferOverflow;
      }
    }
    assert input[..i] == input;

    // Build the array from the linked list.
    var returnArray := allSystems.ToArray(systemsParsedCounter);
    return Parsed(returnArray[..]);
  }

  /**
   * `buildSystemData` with its own buffer of `BufferSize` runes: overflow
   * exactly when the input needs more, otherwise the decoded elements in
   * stream order.
   */
  method SplitSystemData(input: seq<char>, decode: seq<char> -> Option<EliteSystemJson>)
    returns (r: ParseResult)
    ensures r.BufferOverflow? <==> Scan(input).peak > BufferSize
    ensures r.Parsed? ==> r.systems == DecodeAll(Scan(input).chunks, decode)
  {
    r := BuildSystemData(input, BufferSize, decode);
  }
}
