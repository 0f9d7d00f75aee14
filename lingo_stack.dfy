/**
 * The symbolic operand stack of the JavaScript decompiler: an array whose
 * `pop` yields a fresh ERROR node instead of `undefined` when it is empty.
 * `push` and `splice` are the array's own.
 */
module LingoStack {
  import opened LingoAst

  /**
   * Where `splice(length - n, n)` starts. A negative start counts from the
   * end, so asking for more entries than the stack holds starts at
   * `2 * length - n`, clamped at 0, rather than at 0.
   */
  function SpliceStart(length: nat, n: nat): (r: nat)
    ensures r <= length
    ensures n <= length ==> r == length - n
  {
    var start := length - n;
    if start >= 0 then start
    else if length + start >= 0 then length + start
    else 0
  }

  /** The node the k-th consecutive `pop` returns (0 is the top); ERROR once the stack has run dry. */
  function Popped(items: seq<Node>, k: nat): Node
  {
    if k < |items| then items[|items| - 1 - k] else Error
  }

  /** The stack after k consecutive pops. */
  function AfterPops(items: seq<Node>, k: nat): (r: seq<Node>)
    ensures |r| == if k <= |items| then |items| - k else 0
  {
    if k <= |items| then items[..|items| - k] else []
  }

  /** The second of two pops returns the entry below the top, and leaves two entries fewer. */
  lemma PopTwice(items: seq<Node>)
    ensures Popped(AfterPops(items, 1), 0) == Popped(items, 1)
    ensures AfterPops(AfterPops(items, 1), 1) == AfterPops(items, 2)
  {
  }

  /** k pops and then j more are k + j pops. */
  lemma PopsCompose(items: seq<Node>, k: nat, j: nat)
    ensures Popped(AfterPops(items, k), j) == Popped(items, k + j)
    ensures AfterPops(AfterPops(items, k), j) == AfterPops(items, k + j)
  {
  }

  class Stack {
    var items: seq<Node>

    constructor ()
      ensures items == []
    {
      items := [];
    }

    /** `pop`: the top entry, or ERROR and no change when the stack is empty. */
    method Pop() returns (r: Node)
      modifies this
      ensures r == Popped(old(items), 0) && items == AfterPops(old(items), 1)
    {
      if items == [] {
        r := Error;
      } else {
        r := items[|items| - 1];
        items := items[..|items| - 1];
      }
    }

    method Push(n: Node)
      modifies this
      ensures items == old(items) + [n]
    {
      items := items + [n];
    }

    /**
     * `splice(length - n, n)`: removes and returns the entries from
     * `SpliceStart` up, in their stack order.
     */
    method SpliceTop(n: nat) returns (r: seq<Node>)
      modifies this
      ensures items + r == old(items)
      ensures |items| == SpliceStart(|old(items)|, n)
      ensures n <= |old(items)| ==> |r| == n && r == old(items)[|old(items)| - n..]
    {
      var start := SpliceStart(|items|, n);
      r := items[start..];
      items := items[..start];
    }
  }
}
