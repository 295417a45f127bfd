/** Compressed loss lists: a run of consecutive numbers is sent as its first number,
    with the top bit set, followed by its last number. */
module LossCompression {
  import opened SeqNumbers
  import opened Packets

  const RUN_FLAG: int := MODULUS

  /** The length of the longest consecutive run at the front. */
  function RunLength(l: seq<SeqNumber>): (r: nat)
    requires l != []
    ensures 1 <= r <= |l|
  {
    if |l| == 1 || l[1] != Add(l[0], 1) then 1 else 1 + RunLength(l[1..])
  }

  /** One or two words for each maximal run. */
  function Compress(l: seq<SeqNumber>): seq<U32> {
    if l == [] then [] else
      var r := RunLength(l);
      (if r == 1 then [l[0]] else [RUN_FLAG + l[0], l[r - 1]]) + Compress(l[r..])
  }

  function Numbers(first: U32, last: U32): (l: seq<SeqNumber>)
    requires first <= last
    ensures |l| == last - first + 1
    decreases last - first
  {
    if first == last then [Truncate(first)] else [Truncate(first)] + Numbers(first + 1, last)
  }

  /** What a peer reads back; None where the source stops on an unterminated run or
      counts a run's 32-bit counter past its end. */
  function Decompress(words: seq<U32>): Option<seq<SeqNumber>> {
    if words == [] then Some([])
    else if words[0] < RUN_FLAG then
      var rest := Decompress(words[1..]);
      if rest.None? then None else Some([Truncate(words[0])] + rest.value)
    else if |words| == 1 || words[1] <= words[0] - RUN_FLAG then None
    else
      var rest := Decompress(words[2..]);
      if rest.None? then None else Some(Numbers(words[0] - RUN_FLAG, words[1]) + rest.value)
  }

  predicate Ascending(l: seq<SeqNumber>) {
    |l| >= 2 ==> Precedes(l[0], l[1]) && Ascending(l[1..])
  }

  predicate RunCrossesWrap(l: seq<SeqNumber>) {
    |l| >= 2 && ((l[0] == MODULUS - 1 && l[1] == 0) || RunCrossesWrap(l[1..]))
  }

  ghost predicate Distinct(l: seq<SeqNumber>) {
    forall i, j | 0 <= i < j < |l| :: l[i] != l[j]
  }

  lemma {:induction false} RunIsArithmetic(l: seq<SeqNumber>, i: nat)
    requires l != [] && i < RunLength(l)
    ensures l[i] == Wire(l[0] + i)
  {
    hide Wire, Add;
    var first: int := l[0];
    WireOfWire(first, 1);
    if i > 0 {
      RunIsArithmetic(l[1..], i - 1);
      WireAdd(first, 1);
      WireOfWire(first + 1, i - 1);
    }
  }

  /** A run with no wrap inside it counts up as an integer does. */
  lemma {:induction false} RunIsNumbers(l: seq<SeqNumber>)
    requires l != [] && !RunCrossesWrap(l)
    ensures var r := RunLength(l); l[0] + r - 1 == l[r - 1] && l[..r] == Numbers(l[0], l[r - 1])
    ensures HeadRun(l) == Some(l[..RunLength(l)])
  {
    var r := RunLength(l);
    if r > 1 {
      RunIsNumbers(l[1..]);
      assert l[..r] == [l[0]] + l[1..][..r - 1];
    }
  }

  function Joined(a: Option<seq<SeqNumber>>, b: Option<seq<SeqNumber>>): Option<seq<SeqNumber>> {
    if a.None? || b.None? then None else Some(a.value + b.value)
  }

  /** What a peer reads from the words of the first run. */
  function HeadRun(l: seq<SeqNumber>): Option<seq<SeqNumber>>
    requires l != []
  {
    var r := RunLength(l);
    if r == 1 then Some([l[0]])
    else if l[r - 1] <= l[0] then None
    else Some(Numbers(l[0], l[r - 1]))
  }

  lemma {:induction false} DecompressSingle(a: SeqNumber, words: seq<U32>)
    ensures Decompress([a] + words) == Joined(Some([a]), Decompress(words))
  {
    assert ([a] + words)[1..] == words;
  }

  lemma {:induction false} DecompressRun(a: SeqNumber, b: SeqNumber, words: seq<U32>)
    ensures Decompress([RUN_FLAG + a, b] + words)
            == Joined(if b <= a then None else Some(Numbers(a, b)), Decompress(words))
  {
    assert ([RUN_FLAG + a, b] + words)[2..] == words;
  }

  lemma {:induction false} CompressHead(l: seq<SeqNumber>)
    requires l != []
    ensures Decompress(Compress(l)) == Joined(HeadRun(l), Decompress(Compress(l[RunLength(l)..])))
  {
    hide Add, Numbers, Decompress, RunLength;
    var r := RunLength(l);
    var words := Compress(l[r..]);
    if r == 1 {
      assert Compress(l) == [l[0]] + words;
      DecompressSingle(l[0], words);
    } else {
      assert Compress(l) == [RUN_FLAG + l[0], l[r - 1]] + words;
      DecompressRun(l[0], l[r - 1], words);
    }
  }

  lemma {:induction false} TailDoesNotCross(l: seq<SeqNumber>, r: nat)
    requires r <= |l| && !RunCrossesWrap(l)
    ensures !RunCrossesWrap(l[r..])
  {
    if r > 0 {
      TailDoesNotCross(l[1..], r - 1);
      assert l[1..][r - 1..] == l[r..];
    } else {
      assert l[r..] == l;
    }
  }

  /** Reading back what was compressed gives the list, for every list with no run
      across the end of the number space. */
  lemma {:induction false} DecompressUndoesCompress(l: seq<SeqNumber>)
    requires !RunCrossesWrap(l)
    ensures Decompress(Compress(l)) == Some(l)
    decreases |l|
  {
    if l != [] {
      hide Add, RunLength, Numbers;
      TailDoesNotCross(l, RunLength(l));
      DecompressUndoesCompress(l[RunLength(l)..]);
      RunIsNumbers(l);
      FirstRunReadBack(l);
    }
  }

  lemma {:induction false} FirstRunReadBack(l: seq<SeqNumber>)
    requires l != []
    requires var r := RunLength(l); HeadRun(l) == Some(l[..r]) && Decompress(Compress(l[r..])) == Some(l[r..])
    ensures Decompress(Compress(l)) == Some(l)
  {
    hide Add, RunLength, Numbers, Compress, Decompress, HeadRun;
    CompressHead(l);
    assert l == l[..RunLength(l)] + l[RunLength(l)..];
  }

  lemma {:induction false} CrossesAfterRun(l: seq<SeqNumber>)
    requires RunCrossesWrap(l) && l[0] + RunLength(l) <= MODULUS
    ensures RunCrossesWrap(l[RunLength(l)..])
  {
    var r := RunLength(l);
    if r > 1 {
      CrossesAfterRun(l[1..]);
      assert l[1..][r - 1..] == l[r..];
    }
  }

  /** For a list without repeats that condition is also necessary. */
  lemma {:induction false} CrossingRunIsNotReadBack(l: seq<SeqNumber>)
    requires Distinct(l) && RunCrossesWrap(l)
    ensures Decompress(Compress(l)) != Some(l)
    decreases |l|
  {
    var r := RunLength(l);
    var rest := l[r..];
    CompressHead(l);
    HeadRunShape(l);
    if l[0] + r <= MODULUS {
      CrossesAfterRun(l);
      DistinctTail(l, r);
      CrossingRunIsNotReadBack(rest);
      JoinedSuffix(HeadRun(l), Decompress(Compress(rest)), l, r);
    }
  }

  /** So a list without repeats is read back exactly when no run in it crosses the end of
      the number space. */
  lemma {:induction false} ReadBackExactly(l: seq<SeqNumber>)
    requires Distinct(l)
    ensures Decompress(Compress(l)) == Some(l) <==> !RunCrossesWrap(l)
  {
    if RunCrossesWrap(l) {
      CrossingRunIsNotReadBack(l);
    } else {
      DecompressUndoesCompress(l);
    }
  }

  /** The smallest such list: its run starts at 2^31 - 1 and ends at 0, which the raw
      counter never reaches. */
  lemma {:induction false} RunAtTheWrapIsNotReadBack()
    ensures Compress([MODULUS - 1, 0]) == [RUN_FLAG + MODULUS - 1, 0]
    ensures Decompress(Compress([MODULUS - 1, 0])) == None
  {
    var l: seq<SeqNumber> := [MODULUS - 1, 0];
    assert RunLength(l[1..]) == 1 && RunLength(l) == 2;
    assert l[2..] == [] && Compress(l[2..]) == [];
    assert Compress(l) == [RUN_FLAG + MODULUS - 1, 0];
  }

  /** The first run is read back whole, or, if it wraps, not at all. */
  lemma {:induction false} HeadRunShape(l: seq<SeqNumber>)
    requires l != [] && Distinct(l)
    ensures if l[0] + RunLength(l) <= MODULUS then HeadRun(l).Some? && |HeadRun(l).value| == RunLength(l)
            else HeadRun(l).None?
  {
    RunIsArithmetic(l, RunLength(l) - 1);
    RunIsShort(l);
  }

  lemma {:induction false} DistinctTail(l: seq<SeqNumber>, r: nat)
    requires Distinct(l) && r <= |l|
    ensures Distinct(l[r..])
  {
    assert forall i | 0 <= i < |l| - r :: l[r..][i] == l[r + i];
  }

  lemma {:induction false} RunIsShort(l: seq<SeqNumber>)
    requires l != [] && Distinct(l)
    ensures RunLength(l) <= MODULUS
  {
    if MODULUS < RunLength(l) {
      RunIsArithmetic(l, MODULUS);
      assert false;
    }
  }

  lemma {:induction false} JoinedSuffix(
    head: Option<seq<SeqNumber>>, back: Option<seq<SeqNumber>>, l: seq<SeqNumber>, r: nat)
    requires r <= |l| && back != Some(l[r..])
    requires head.Some? ==> |head.value| == r
    ensures Joined(head, back) != Some(l)
  {
    if head.Some? && back.Some? {
      assert (head.value + back.value)[r..] == back.value;
    }
  }

  // ---- Ranges ----

  function TryFromRange(first: SeqNumber, end: SeqNumber): Option<seq<U32>> {
    if !Precedes(first, end) then None
    else if Add(first, 1) == end then Some([first])
    else Some([RUN_FLAG + first, Back(end, 1)])
  }

  function Enumerate(first: SeqNumber, count: nat): (l: seq<SeqNumber>)
    ensures |l| == count
    decreases count
  {
    if count == 0 then [] else [first] + Enumerate(Add(first, 1), count - 1)
  }

  lemma {:induction false} EnumerationIsOneRun(first: SeqNumber, count: nat)
    requires 0 < count < MODULUS
    ensures var l := Enumerate(first, count);
            RunLength(l) == count && l[count - 1] == Back(Add(first, count), 1)
    decreases count
  {
    if count > 1 {
      EnumerationIsOneRun(Add(first, 1), count - 1);
      assert Enumerate(first, count)[1..] == Enumerate(Add(first, 1), count - 1);
    }
  }

  /** A range is written exactly as its enumeration would be. */
  lemma {:induction false} RangeIsItsEnumeration(first: SeqNumber, end: SeqNumber)
    requires first != end
    ensures TryFromRange(first, end) ==
            if Distance(end, first) <= MAX_DIFF then Some(Compress(Enumerate(first, Distance(end, first)))) else None
  {
    var n := Distance(end, first);
    var l := Enumerate(first, n);
    EnumerationIsOneRun(first, n);
    assert Add(first, n) == end && Precedes(first, end) == (n <= MAX_DIFF);
    assert l[0] == first;
    assert Compress(l) == if n == 1 then [first] else [RUN_FLAG + first, Back(end, 1)] by {
      hide RunLength, Enumerate;
      assert l[RunLength(l)..] == [];
      assert Compress(l[RunLength(l)..]) == [];
    }
  }

  // ---- The iterators ----

  /** The words for `l` when its first number does or does not continue an open run. */
  function Words(l: seq<SeqNumber>, inLoop: bool): seq<U32> {
    if l != [] && inLoop then [l[RunLength(l) - 1]] + Compress(l[RunLength(l)..]) else Compress(l)
  }

  lemma {:induction false} WordsStep(l: seq<SeqNumber>, inLoop: bool)
    requires |l| >= 2
    ensures var joined := l[1] == Add(l[0], 1);
            Words(l, inLoop) == (if !joined then [l[0]] else if inLoop then [] else [RUN_FLAG + l[0]])
              + Words(l[1..], joined)
  {
    if l[1] == Add(l[0], 1) {
      assert l[RunLength(l)..] == l[1..][RunLength(l[1..])..];
    }
  }

  lemma {:induction false} WordsLast(l: seq<SeqNumber>, inLoop: bool)
    requires |l| == 1
    ensures Words(l, inLoop) == [l[0]]
  {
    assert l[RunLength(l)..] == [];
    assert Compress(l[RunLength(l)..]) == [];
  }

  class CompressLossList {
    var pending: seq<SeqNumber>
    var next: Option<SeqNumber>
    var lastInLoop: Option<SeqNumber>

    ghost function Pending(): seq<SeqNumber>
      reads this
    {
      if next.None? then pending else [next.value] + pending
    }

    ghost predicate Valid()
      reads this
    {
      && Ascending(Pending())
      && (lastInLoop.Some? ==> if next.Some? then next.value == Add(lastInLoop.value, 1) else pending == [])
    }

    /** The words still to come. */
    ghost function Remaining(): seq<U32>
      reads this
    {
      Words(Pending(), lastInLoop.Some?)
    }

    constructor (list: seq<SeqNumber>)
      requires Ascending(list)
      ensures Valid() && Remaining() == Compress(list) && Pending() == list
    {
      pending, next, lastInLoop := list, None, None;
    }

    method Prime()
      requires Valid()
      modifies this
      ensures Valid() && Pending() == old(Pending()) && lastInLoop == old(lastInLoop)
      ensures next.None? <==> Pending() == []
    {
      if next.None? && pending != [] {
        ghost var l := pending;
        next, pending := Some(pending[0]), pending[1..];
        assert Pending() == l;
      }
    }

    // One turn of the loop in `Next`: the word it settles on, if it does.
    method Turn() returns (r: Option<U32>)
      requires Valid() && next.Some?
      modifies this
      ensures Valid() && |Pending()| < old(|Pending()|)
      ensures r.None? ==> next.Some? && Remaining() == old(Remaining())
      ensures r.Some? ==> old(Remaining()) == [r.value] + Remaining()
    {
      ghost var l := Pending();
      ghost var inLoop := lastInLoop.Some?;
      var current := next.value;
      if pending == [] {
        WordsLast(l, inLoop);
        next := None;
        return Some(current);
      }
      next, pending := Some(pending[0]), pending[1..];
      assert Pending() == l[1..];
      assert Precedes(current, next.value);
      WordsStep(l, inLoop);
      if lastInLoop.Some? {
        if Add(lastInLoop.value, 2) == next.value {
          lastInLoop := Some(Add(lastInLoop.value, 1));
          return None;
        }
        lastInLoop := None;
        return Some(current);
      }
      if Add(current, 1) == next.value {
        lastInLoop := Some(current);
        return Some(current + RUN_FLAG);
      }
      return Some(current);
    }

    method Next() returns (r: Option<U32>)
      requires Valid()
      modifies this
      ensures Valid()
      ensures r.None? ==> old(Remaining()) == [] && Remaining() == []
      ensures r.Some? ==> old(Remaining()) == [r.value] + Remaining()
      ensures r.Some? ==> |Pending()| < old(|Pending()|)
    {
      Prime();
      if next.None? { return None; }
      r := Turn();
      while r.None?
        invariant Valid()
        invariant r.None? ==> next.Some? && Remaining() == old(Remaining())
        invariant r.Some? ==> old(Remaining()) == [r.value] + Remaining()
        invariant |Pending()| < old(|Pending()|)
        decreases |Pending()|
      {
        r := Turn();
      }
    }
  }

  lemma {:induction false} AscendingAppend(l: seq<SeqNumber>, x: SeqNumber)
    requires Ascending(l) && (l != [] ==> Precedes(l[|l| - 1], x))
    ensures Ascending(l + [x])
  {
    if |l| >= 2 {
      AscendingAppend(l[1..], x);
      assert (l + [x])[1..] == l[1..] + [x];
    } else if |l| == 1 {
      assert (l + [x])[1..] == [x];
    }
  }

  method CompressAll(list: seq<SeqNumber>) returns (words: seq<U32>)
    requires Ascending(list)
    ensures words == Compress(list)
  {
    hide Words, Compress, Ascending;
    words := [];
    var it := new CompressLossList(list);
    while true
      invariant fresh(it) && it.Valid()
      invariant Compress(list) == words + it.Remaining()
      decreases |it.Pending()|
    {
      var word := it.Next();
      if word.None? { return; }
      words := words + [word.value];
    }
  }

  lemma {:induction false} JoinedMoves(read: seq<SeqNumber>, n: SeqNumber, rest: Option<seq<SeqNumber>>)
    ensures Joined(Some(read), Joined(Some([n]), rest)) == Joined(Some(read + [n]), rest)
    ensures Joined(Some([]), rest) == rest && Joined(Some(read), Some([])) == Some(read)
  {
    if rest.Some? {
      assert read + ([n] + rest.value) == read + [n] + rest.value;
      assert [] + rest.value == rest.value;
    }
    assert read + [] == read;
  }

  lemma {:induction false} NumbersStep(first: U32, last: U32, rest: Option<seq<SeqNumber>>)
    requires first <= last
    ensures Joined(Some(Numbers(first, last)), rest) ==
            Joined(Some([Truncate(first)]), if first == last then rest
              else Joined(Some(Numbers(first + 1, last)), rest))
  {
    if first < last && rest.Some? {
      assert Numbers(first, last) + rest.value == [Truncate(first)] + (Numbers(first + 1, last) + rest.value);
    }
  }

  datatype Reading = Item(number: SeqNumber) | End | Stops

  class DecompressLossList {
    var pending: seq<U32>
    var loopNextEnd: Option<(U32, U32)>

    /** The numbers still to come; None if the source stops before their end. */
    ghost function Remaining(): Option<seq<SeqNumber>>
      reads this
    {
      var rest := Decompress(pending);
      if loopNextEnd.None? || rest.None? then rest
      else if loopNextEnd.value.1 < loopNextEnd.value.0 then None
      else Some(Numbers(loopNextEnd.value.0, loopNextEnd.value.1) + rest.value)
    }

    ghost function LoopLeft(): nat
      reads this
    {
      if loopNextEnd.None? then 0 else U32_RANGE - loopNextEnd.value.0
    }

    constructor (words: seq<U32>)
      ensures Remaining() == Decompress(words)
    {
      pending, loopNextEnd := words, None;
    }

    /** Whatever the words are, each number read is the next one; the source stops on a
        run without an end and on one whose counter passes 32 bits. */
    method Next() returns (r: Reading)
      modifies this
      ensures match r
              case Item(n) =>
                && old(Remaining()) == Joined(Some([n]), Remaining())
                && (|pending| < old(|pending|) || (pending == old(pending) && LoopLeft() < old(LoopLeft())))
              case End => old(Remaining()) == Some([])
              case Stops => old(Remaining()).None?
    {
      match loopNextEnd {
        case Some((next, end)) =>
          if next <= end { NumbersStep(next, end, Decompress(pending)); }
          if next == end {
            loopNextEnd := None;
          } else if next == U32_RANGE - 1 {
            return Stops;
          } else {
            loopNextEnd := Some((next + 1, end));
          }
          return Item(Truncate(next));
        case None =>
          if pending == [] { return End; }
          var next := pending[0];
          if RUN_FLAG <= next {
            var first := next - RUN_FLAG;
            if |pending| == 1 { return Stops; }
            var end := pending[1];
            pending := pending[2..];
            loopNextEnd := Some((first + 1, end));
            if first < end { NumbersStep(first, end, Decompress(pending)); }
            return Item(Truncate(first));
          } else {
            pending := pending[1..];
            return Item(Truncate(next));
          }
      }
    }
  }

  method DecompressAll(words: seq<U32>) returns (list: Option<seq<SeqNumber>>)
    ensures list == Decompress(words)
  {
    hide Decompress;
    var read: seq<SeqNumber> := [];
    var it := new DecompressLossList(words);
    JoinedMoves(read, 0, it.Remaining());
    while true
      invariant fresh(it)
      invariant Decompress(words) == Joined(Some(read), it.Remaining())
      decreases |it.pending|, it.LoopLeft()
    {
      var item := it.Next();
      JoinedMoves(read, if item.Item? then item.number else 0, it.Remaining());
      match item {
        case End => return Some(read);
        case Stops => return None;
        case Item(n) => read := read + [n];
      }
    }
  }
}
