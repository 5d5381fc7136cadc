/** The hub's bounded history: append, and once over capacity drop the oldest tenth in place. */
module Ring {

  /** The contents after one append. */
  function Next<T>(buf: seq<T>, x: T, maxLen: nat): seq<T> {
    var b := buf + [x];
    if |b| > maxLen then b[maxLen / 10..] else b
  }

  /** The contents after appending a whole history to an empty buffer. */
  function Contents<T>(history: seq<T>, maxLen: nat): seq<T> {
    if history == [] then [] else Next(Contents(history[..|history| - 1], maxLen), history[|history| - 1], maxLen)
  }

  /** How often the buffer went over capacity. */
  function Evictions<T>(history: seq<T>, maxLen: nat): nat {
    if history == [] then 0
    else
      Evictions(history[..|history| - 1], maxLen)
      + if |Contents(history[..|history| - 1], maxLen)| + 1 > maxLen then 1 else 0
  }

  /** How many elements all evictions together moved. */
  function Moved<T>(history: seq<T>, maxLen: nat): int {
    if history == [] then 0
    else
      var n := |Contents(history[..|history| - 1], maxLen)| + 1;
      Moved(history[..|history| - 1], maxLen) + if n > maxLen then n - maxLen / 10 else 0
  }

  // ----- The buffer -----

  /** A slice: the first `len` elements of a backing array. */
  class Slice<T(0)> {
    var data: array<T>
    var len: nat

    ghost predicate Valid()
      reads this
    {
      len <= data.Length
    }

    ghost function Value(): seq<T>
      reads this, data
      requires Valid()
    {
      data[..len]
    }

    constructor ()
      ensures Valid() && Value() == [] && fresh(data)
    {
      data := new T[0];
      len := 0;
    }

    /** The built-in append: into spare capacity if there is some, else into a larger array. */
    method Append(x: T)
      requires Valid()
      modifies this, data
      ensures Valid() && Value() == old(Value()) + [x]
      ensures data == old(data) || fresh(data)
    {
      if len == data.Length {
        var larger := new T[2 * len + 1];
        for i := 0 to len
          modifies larger
          invariant larger[..i] == data[..i]
        {
          larger[i] := data[i];
        }
        data := larger;
      }
      data[len] := x;
      len := len + 1;
    }

    /** copy(buf, buf[drop:]) followed by the reslice: front to back within the same array. */
    method DropOldest(drop: nat)
      requires Valid() && drop <= len
      modifies this, data
      ensures Valid() && data == old(data) && Value() == old(Value())[drop..]
    {
      for i := 0 to len - drop
        invariant len == old(len) && data == old(data)
        invariant data[..i] == old(data[..])[drop..drop + i]
        invariant data[i..] == old(data[..])[i..]
      {
        assert data[i..][drop] == old(data[..])[i..][drop];
        assert data[i + 1..] == data[i..][1..];
        data[i] := data[i + drop];
      }
      len := len - drop;
    }

    /** ringAppend. */
    method RingAppend(x: T, maxLen: nat)
      requires Valid()
      modifies this, data
      ensures Valid() && Value() == Next(old(Value()), x, maxLen)
      ensures data == old(data) || fresh(data)
    {
      Append(x);
      if len > maxLen {
        DropOldest(maxLen / 10);
      }
    }
  }

  // ----- What the buffer holds -----

  /** The buffer is always the newest part of what was appended. */
  lemma {:induction false} ContentsIsSuffix<T>(history: seq<T>, maxLen: nat)
    ensures
      var c := Contents(history, maxLen);
      |c| <= |history| && c == history[|history| - |c|..]
  {
    if history != [] {
      var init, x := history[..|history| - 1], history[|history| - 1];
      ContentsIsSuffix(init, maxLen);
      assert history == init + [x];
    }
  }

  /** From ten up, the capacity is respected and at most a tenth of it is ever missing. */
  lemma {:induction false} ContentsBounded<T>(history: seq<T>, maxLen: nat)
    requires maxLen >= 10
    ensures
      var n, kept := |Contents(history, maxLen)|, maxLen + 1 - maxLen / 10;
      n <= maxLen && n >= if |history| <= kept then |history| else kept
  {
    if history != [] {
      ContentsBounded(history[..|history| - 1], maxLen);
    }
  }

  /** Below ten nothing is ever dropped. */
  lemma {:induction false} SmallRingKeepsAll<T>(history: seq<T>, maxLen: nat)
    requires maxLen < 10
    ensures Contents(history, maxLen) == history
  {
    if history != [] {
      var init, x := history[..|history| - 1], history[|history| - 1];
      SmallRingKeepsAll(init, maxLen);
      assert history == init + [x];
    }
  }

  /** The bound holds exactly for capacities of at least ten, or histories that fit. */
  lemma {:induction false} BoundedIff<T>(history: seq<T>, maxLen: nat)
    ensures |Contents(history, maxLen)| <= maxLen <==> maxLen >= 10 || |history| <= maxLen
  {
    if maxLen >= 10 {
      ContentsBounded(history, maxLen);
    } else {
      SmallRingKeepsAll(history, maxLen);
    }
  }

  lemma {:induction false} OneMore(e: nat, k: nat)
    ensures (e + 1) * k == e * k + k
  {
  }

  /** Kept and dropped elements add up to everything appended. */
  lemma {:induction false} KeptPlusDropped<T>(history: seq<T>, maxLen: nat)
    ensures |Contents(history, maxLen)| + Evictions(history, maxLen) * (maxLen / 10) == |history|
  {
    if history != [] {
      var init := history[..|history| - 1];
      KeptPlusDropped(init, maxLen);
      OneMore(Evictions(init, maxLen), maxLen / 10);
    }
  }

  lemma {:induction false} EvictionsMoveTheSame<T>(history: seq<T>, maxLen: nat)
    requires maxLen >= 10
    ensures Moved(history, maxLen) == Evictions(history, maxLen) * (maxLen + 1 - maxLen / 10)
  {
    if history != [] {
      var init := history[..|history| - 1];
      EvictionsMoveTheSame(init, maxLen);
      ContentsBounded(init, maxLen);
      OneMore(Evictions(init, maxLen), maxLen + 1 - maxLen / 10);
    }
  }

  lemma {:induction false} ScaleUp(a: nat, b: nat, k: nat)
    requires a <= b
    ensures a * k <= b * k
  {
  }

  lemma {:induction false} Exchange(e: nat, kept: nat, drop: nat)
    ensures (e * kept) * drop == (e * drop) * kept
  {
  }

  /** The cost of shifting is amortized: the elements moved stay proportional to the appends. */
  lemma {:induction false} MovedAmortized<T>(history: seq<T>, maxLen: nat)
    requires maxLen >= 10
    ensures Moved(history, maxLen) * (maxLen / 10) <= |history| * (maxLen + 1 - maxLen / 10)
  {
    hide Moved, Evictions, Contents;
    var e, drop, kept := Evictions(history, maxLen), maxLen / 10, maxLen + 1 - maxLen / 10;
    EvictionsMoveTheSame(history, maxLen);
    KeptPlusDropped(history, maxLen);
    ScaleUp(e * drop, |history|, kept);
    Exchange(e, kept, drop);
  }
}
