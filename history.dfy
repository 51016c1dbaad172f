/** `addToHistory` (App.jsx, lines 11-13): the newest item first, at most ten kept. */
module History {
  const Capacity: nat := 10

  /** `[item, ...prev.slice(0, 9)]`. */
  function AddToHistory<T>(prev: seq<T>, item: T): (r: seq<T>)
    ensures |r| == if |prev| < Capacity then |prev| + 1 else Capacity
    ensures r[0] == item
    ensures forall i :: 1 <= i < |r| ==> r[i] == prev[i - 1]
  {
    [item] + prev[..if |prev| < Capacity - 1 then |prev| else Capacity - 1]
  }

  /** Adding `items` one after another, oldest first. */
  function AddAll<T>(h: seq<T>, items: seq<T>): seq<T>
    decreases |items|
  {
    if items == [] then h else AddAll(AddToHistory(h, items[0]), items[1..])
  }

  function Reverse<T>(s: seq<T>): (r: seq<T>)
    ensures |r| == |s|
    ensures forall i :: 0 <= i < |s| ==> r[i] == s[|s| - 1 - i]
  {
    if s == [] then [] else Reverse(s[1..]) + [s[0]]
  }

  /** The first `n` items of `s`, or all of them. */
  function Prefix<T>(s: seq<T>, n: nat): seq<T> {
    if |s| <= n then s else s[..n]
  }

  /**
   * The history always holds the newest items, newest first: after adding
   * `items` to `h`, it is the ten newest of everything seen.
   */
  lemma {:induction false} AddAllKeepsNewest<T>(h: seq<T>, items: seq<T>)
    requires |h| <= Capacity
    ensures AddAll(h, items) == Prefix(Reverse(items) + h, Capacity)
    decreases |items|
  {
    if items == [] {
      assert Reverse(items) + h == h;
    } else {
      var h' := AddToHistory(h, items[0]);
      AddAllKeepsNewest(h', items[1..]);
      assert Reverse(items) == Reverse(items[1..]) + [items[0]];
      var all := Reverse(items) + h;
      assert all == Reverse(items[1..]) + ([items[0]] + h);
      PrefixAppend(Reverse(items[1..]), [items[0]] + h, h');
    }
  }

  /** Cutting `[item] + h` to ten before or after putting newer items in front gives the same ten. */
  lemma PrefixAppend<T>(front: seq<T>, back: seq<T>, cut: seq<T>)
    requires cut == Prefix(back, Capacity)
    ensures Prefix(front + cut, Capacity) == Prefix(front + back, Capacity)
  {
    if |back| > Capacity {
      if |front| >= Capacity {
        assert (front + cut)[..Capacity] == front[..Capacity] == (front + back)[..Capacity];
      } else {
        assert (front + cut)[..Capacity] == (front + back)[..Capacity];
      }
    }
  }

  /** Ten or more additions leave exactly the last ten, newest first — whatever came before. */
  lemma LongRunForgetsStart<T>(h: seq<T>, items: seq<T>)
    requires |h| <= Capacity && |items| >= Capacity
    ensures AddAll(h, items) == Reverse(items[|items| - Capacity..])
  {
    AddAllKeepsNewest(h, items);
    var r := Reverse(items) + h;
    assert Prefix(r, Capacity) == Reverse(items)[..Capacity];
  }
}
