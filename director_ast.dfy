/**
 * The syntax tree the director-generation translator grows while it reads
 * a handler, kept as an arena: blocks and block statements are numbered
 * in the order they are created. A block points at the statement it
 * belongs to (the handler's own block, number 0, belongs to none), and a
 * statement points at the block it was added to, as `BlockNode::addChild`
 * sets a child's `parent`. Statements without blocks are plain `Node`
 * values in a block's children; a block statement appears there as
 * `StmtRef` of its number.
 */
module DirectorAst {
  import opened Bytes
  import opened Wrappers
  import opened DirectorLingo

  /** `BlockNode`: its statement (-1 for the handler's block), the position where it ends, its children. */
  datatype Block = Block(owner: int, endPos: nat, children: seq<Node>)

  /** The statements that own blocks. */
  datatype StmtKind =
    | IfStmt(condition: Node, hasElse: bool, block1: nat, block2: nat)
    | RepeatWhileStmt(startIndex: nat, condition: Node, block: nat)
    | RepeatWithInStmt(startIndex: nat, varName: string, list: Node, block: nat)
    | RepeatWithToStmt(startIndex: nat, varName: string, start: Node, up: bool, end: Node, block: nat)
    | TellStmt(window: Node, block: nat)

  /** A block statement and the block it was added to. */
  datatype Stmt = Stmt(kind: StmtKind, parent: nat)

  /** `isLoop`: the three repeat statements. */
  predicate IsLoop(k: StmtKind)
  {
    k.RepeatWhileStmt? || k.RepeatWithInStmt? || k.RepeatWithToStmt?
  }

  /** `LoopNode::startIndex`: the index of the loop's `jmpifz`. */
  function StartIndex(k: StmtKind): nat
    requires IsLoop(k)
  {
    if k.RepeatWhileStmt? then k.startIndex
    else if k.RepeatWithInStmt? then k.startIndex
    else k.startIndex
  }

  /** The lower-numbered of a statement's blocks. */
  function FirstBlock(k: StmtKind): nat
  {
    if k.IfStmt? then k.block1 else k.block
  }

  /** Whether block b is one of the statement's. */
  predicate OwnsBlock(k: StmtKind, b: nat)
  {
    if k.IfStmt? then b == k.block1 || b == k.block2 else b == k.block
  }

  /**
   * Statement s is well placed: it was added to a block created before
   * its own, an if statement's two blocks are consecutive, and its blocks
   * exist and point back at it.
   */
  predicate StmtWellFormed(blocks: seq<Block>, stmts: seq<Stmt>, s: nat)
    requires s < |stmts|
  {
    var k := stmts[s].kind;
    && stmts[s].parent < FirstBlock(k)
    && (if k.IfStmt? then
          && k.block2 == k.block1 + 1 && k.block2 < |blocks|
          && blocks[k.block1].owner == s && blocks[k.block2].owner == s
        else k.block < |blocks| && blocks[k.block].owner == s)
  }

  /** Every block but the handler's belongs to a statement that counts it among its blocks. */
  predicate BlocksOwned(blocks: seq<Block>, stmts: seq<Stmt>)
  {
    forall b :: 1 <= b < |blocks| ==> 0 <= blocks[b].owner < |stmts| && OwnsBlock(stmts[blocks[b].owner].kind, b)
  }

  /** The arena is a tree rooted at the handler's block. */
  predicate ArenaWellFormed(blocks: seq<Block>, stmts: seq<Stmt>)
  {
    && |blocks| >= 1 && blocks[0].owner == -1
    && BlocksOwned(blocks, stmts)
    && (forall s :: 0 <= s < |stmts| ==> StmtWellFormed(blocks, stmts, s))
  }

  /** The statement that owns block b, which exists for every block but the handler's. */
  function OwnerOf(blocks: seq<Block>, stmts: seq<Stmt>, b: nat): (s: nat)
    requires ArenaWellFormed(blocks, stmts) && 1 <= b < |blocks|
    ensures s < |stmts| && OwnsBlock(stmts[s].kind, b) && stmts[s].parent < b
  {
    var s := blocks[b].owner;
    assert StmtWellFormed(blocks, stmts, s);
    s
  }

  /** The arena the translator starts from: the handler's block alone, ending at UINT32_MAX. */
  const EmptyArena: (seq<Block>, seq<Stmt>) := ([Block(-1, UINT32_MAX, [])], [])

  lemma EmptyArenaWellFormed()
    ensures ArenaWellFormed(EmptyArena.0, EmptyArena.1) && |EmptyArena.0| == 1
  {
  }

  // ---------------------------------------------------------------------
  // Walking up (`ancestorStatement`, `ancestorLoop`, `exitBlock`).

  /**
   * `exitBlock`: the block the statement that owns b was added to, or -1
   * (no current block) when b is the handler's block.
   */
  function ExitTarget(blocks: seq<Block>, stmts: seq<Stmt>, b: nat): (r: int)
    requires ArenaWellFormed(blocks, stmts) && b < |blocks|
    ensures -1 <= r < b
    ensures r == -1 <==> b == 0
  {
    if b == 0 then -1 else stmts[OwnerOf(blocks, stmts, b)].parent
  }

  /**
   * `ancestorLoop`: the start index of the nearest loop whose block
   * encloses b, walking from b's statement up through the blocks the
   * statements were added to; None when no loop encloses it.
   */
  function AncestorLoop(blocks: seq<Block>, stmts: seq<Stmt>, b: nat): Option<nat>
    requires ArenaWellFormed(blocks, stmts) && b < |blocks|
    decreases b
  {
    if b == 0 then None
    else
      var s := OwnerOf(blocks, stmts, b);
      if IsLoop(stmts[s].kind) then Some(StartIndex(stmts[s].kind))
      else AncestorLoop(blocks, stmts, stmts[s].parent)
  }

  /** How many statements enclose block b. */
  ghost function Depth(blocks: seq<Block>, stmts: seq<Stmt>, b: nat): nat
    requires ArenaWellFormed(blocks, stmts) && b < |blocks|
    decreases b
  {
    if b == 0 then 0 else 1 + Depth(blocks, stmts, stmts[OwnerOf(blocks, stmts, b)].parent)
  }

  /** Whether b is the first block of an if statement. */
  predicate IsFirstOfIf(blocks: seq<Block>, stmts: seq<Stmt>, b: nat)
    requires ArenaWellFormed(blocks, stmts) && b < |blocks|
  {
    b != 0 && var k := stmts[OwnerOf(blocks, stmts, b)].kind; k.IfStmt? && k.block1 == b
  }

  /**
   * The block the closing loop of `translate` moves to when it leaves b:
   * the second block of an if/else when b is its first block, otherwise
   * the block `exitBlock` gives.
   */
  function LeaveBlock(blocks: seq<Block>, stmts: seq<Stmt>, b: nat): (r: int)
    requires ArenaWellFormed(blocks, stmts) && b < |blocks|
    ensures -1 <= r < |blocks|
  {
    if IsFirstOfIf(blocks, stmts, b) && stmts[OwnerOf(blocks, stmts, b)].kind.hasElse then
      assert StmtWellFormed(blocks, stmts, OwnerOf(blocks, stmts, b));
      stmts[OwnerOf(blocks, stmts, b)].kind.block2
    else ExitTarget(blocks, stmts, b)
  }

  /** A measure on the current block that each pass of the closing loop lowers; -1 is the bottom. */
  ghost function ExitMeasure(blocks: seq<Block>, stmts: seq<Stmt>, b: int): nat
    requires ArenaWellFormed(blocks, stmts) && b < |blocks|
  {
    if b < 0 then 0
    else 2 * Depth(blocks, stmts, b) + 1 + (if IsFirstOfIf(blocks, stmts, b) then 1 else 0)
  }

  /**
   * The closing loop of `translate` terminates: leaving a block, either
   * for the second block of its if/else or for the block its statement
   * was added to, lowers the measure.
   */
  lemma LeaveBlockDecreases(blocks: seq<Block>, stmts: seq<Stmt>, b: nat)
    requires ArenaWellFormed(blocks, stmts) && b < |blocks|
    ensures ExitMeasure(blocks, stmts, LeaveBlock(blocks, stmts, b)) < ExitMeasure(blocks, stmts, b)
  {
    if b != 0 {
      var s := OwnerOf(blocks, stmts, b);
      var k := stmts[s].kind;
      if IsFirstOfIf(blocks, stmts, b) && k.hasElse {
        assert StmtWellFormed(blocks, stmts, s);
        var b2 := k.block2;
        assert OwnerOf(blocks, stmts, b2) == s;
        assert !IsFirstOfIf(blocks, stmts, b2);
      }
    }
  }

  // ---------------------------------------------------------------------
  // Growing the tree (`addStatement`, new block statements, the else amendment).

  /** `addStatement`: child appended to block b. */
  function WithChild(blocks: seq<Block>, b: nat, child: Node): (r: seq<Block>)
    requires b < |blocks|
    ensures |r| == |blocks| && r[b].children == blocks[b].children + [child]
    ensures r[b].owner == blocks[b].owner && r[b].endPos == blocks[b].endPos
    ensures forall k :: 0 <= k < |blocks| && k != b ==> r[k] == blocks[k]
  {
    blocks[b := blocks[b].(children := blocks[b].children + [child])]
  }

  /** Adding a child changes no block's owner, so the tree keeps its shape and its loops. */
  lemma WithChildKeepsTree(blocks: seq<Block>, stmts: seq<Stmt>, b: nat, child: Node, c: nat)
    requires ArenaWellFormed(blocks, stmts) && b < |blocks| && c < |blocks|
    ensures ArenaWellFormed(WithChild(blocks, b, child), stmts)
    ensures AncestorLoop(WithChild(blocks, b, child), stmts, c) == AncestorLoop(blocks, stmts, c)
    ensures ExitTarget(WithChild(blocks, b, child), stmts, c) == ExitTarget(blocks, stmts, c)
    decreases c
  {
    var r := WithChild(blocks, b, child);
    assert forall s :: 0 <= s < |stmts| ==> StmtWellFormed(blocks, stmts, s) ==> StmtWellFormed(r, stmts, s);
    if c != 0 {
      WithChildKeepsTree(blocks, stmts, b, child, stmts[OwnerOf(blocks, stmts, c)].parent);
    }
  }

  /**
   * A new block statement added to block `parent`: its blocks are the next
   * ones of the arena, the first ending at `endPos` and the second block
   * of an if at UINT32_MAX, as `BlockNode` starts.
   */
  function NewStmt(blocks: seq<Block>, stmts: seq<Stmt>, kind: StmtKind, parent: nat, endPos: nat): (r: (seq<Block>, seq<Stmt>))
    requires FirstBlock(kind) == |blocks| && (kind.IfStmt? ==> kind.block2 == |blocks| + 1)
    ensures |r.1| == |stmts| + 1 && r.1[|stmts|] == Stmt(kind, parent) && r.1[..|stmts|] == stmts
    ensures |r.0| == |blocks| + (if kind.IfStmt? then 2 else 1)
    ensures r.0[..|blocks|] == blocks && r.0[|blocks|] == Block(|stmts|, endPos, [])
    ensures kind.IfStmt? ==> r.0[|blocks| + 1] == Block(|stmts|, UINT32_MAX, [])
  {
    var first := Block(|stmts|, endPos, []);
    var added := if kind.IfStmt? then [first, Block(|stmts|, UINT32_MAX, [])] else [first];
    assert (blocks + added)[..|blocks|] == blocks;
    (blocks + added, stmts + [Stmt(kind, parent)])
  }

  /** A statement added to an existing block keeps the arena a tree. */
  lemma NewStmtKeepsTree(blocks: seq<Block>, stmts: seq<Stmt>, kind: StmtKind, parent: nat, endPos: nat)
    requires ArenaWellFormed(blocks, stmts) && parent < |blocks|
    requires FirstBlock(kind) == |blocks| && (kind.IfStmt? ==> kind.block2 == |blocks| + 1)
    ensures ArenaWellFormed(NewStmt(blocks, stmts, kind, parent, endPos).0, NewStmt(blocks, stmts, kind, parent, endPos).1)
  {
    var r := NewStmt(blocks, stmts, kind, parent, endPos);
    forall s | 0 <= s < |r.1| ensures StmtWellFormed(r.0, r.1, s) {
      if s < |stmts| {
        assert StmtWellFormed(blocks, stmts, s);
        assert r.1[s] == stmts[s];
      }
    }
    forall b | 1 <= b < |r.0| ensures 0 <= r.0[b].owner < |r.1| && OwnsBlock(r.1[r.0[b].owner].kind, b) {
      if b < |blocks| {
        assert r.0[b] == blocks[b];
        assert r.1[blocks[b].owner] == stmts[blocks[b].owner];
      }
    }
  }

  /** The first block of a new statement lies inside the loops that enclose the block it was added to, and inside itself when it is a loop. */
  lemma NewStmtLoop(blocks: seq<Block>, stmts: seq<Stmt>, kind: StmtKind, parent: nat, endPos: nat)
    requires ArenaWellFormed(blocks, stmts) && parent < |blocks|
    requires FirstBlock(kind) == |blocks| && (kind.IfStmt? ==> kind.block2 == |blocks| + 1)
    ensures var r := NewStmt(blocks, stmts, kind, parent, endPos);
      ArenaWellFormed(r.0, r.1) &&
      AncestorLoop(r.0, r.1, |blocks|) == if IsLoop(kind) then Some(StartIndex(kind)) else AncestorLoop(blocks, stmts, parent)
  {
    var r := NewStmt(blocks, stmts, kind, parent, endPos);
    NewStmtKeepsTree(blocks, stmts, kind, parent, endPos);
    assert OwnerOf(r.0, r.1, |blocks|) == |stmts|;
    if !IsLoop(kind) {
      NewStmtKeepsLoops(blocks, stmts, kind, parent, endPos, parent);
    }
  }

  /** Adding a statement changes no existing block's enclosing loop. */
  lemma NewStmtKeepsLoops(blocks: seq<Block>, stmts: seq<Stmt>, kind: StmtKind, parent: nat, endPos: nat, c: nat)
    requires ArenaWellFormed(blocks, stmts) && parent < |blocks| && c < |blocks|
    requires FirstBlock(kind) == |blocks| && (kind.IfStmt? ==> kind.block2 == |blocks| + 1)
    ensures var r := NewStmt(blocks, stmts, kind, parent, endPos);
      ArenaWellFormed(r.0, r.1) &&
      AncestorLoop(r.0, r.1, c) == AncestorLoop(blocks, stmts, c)
    decreases c
  {
    var r := NewStmt(blocks, stmts, kind, parent, endPos);
    NewStmtKeepsTree(blocks, stmts, kind, parent, endPos);
    if c != 0 {
      assert r.0[c] == blocks[c];
      var s := OwnerOf(blocks, stmts, c);
      assert r.1[s] == stmts[s];
      NewStmtKeepsLoops(blocks, stmts, kind, parent, endPos, stmts[s].parent);
    }
  }

  /**
   * The else amendment of a `jmp` at the end of an if's first block: the
   * if gets an else, and its second block ends at the jump's target.
   */
  function WithElse(blocks: seq<Block>, stmts: seq<Stmt>, s: nat, endPos: nat): (r: (seq<Block>, seq<Stmt>))
    requires ArenaWellFormed(blocks, stmts) && s < |stmts| && stmts[s].kind.IfStmt?
    ensures var k := stmts[s].kind;
      && k.block2 < |blocks| && |r.0| == |blocks| && |r.1| == |stmts|
      && r.1 == stmts[s := Stmt(k.(hasElse := true), stmts[s].parent)]
      && r.0 == blocks[k.block2 := blocks[k.block2].(endPos := endPos)]
  {
    assert StmtWellFormed(blocks, stmts, s);
    var k := stmts[s].kind;
    (blocks[k.block2 := blocks[k.block2].(endPos := endPos)], stmts[s := Stmt(k.(hasElse := true), stmts[s].parent)])
  }

  /** The amendment keeps the arena a tree: no block changes owner and no statement changes blocks. */
  lemma WithElseKeepsTree(blocks: seq<Block>, stmts: seq<Stmt>, s: nat, endPos: nat)
    requires ArenaWellFormed(blocks, stmts) && s < |stmts| && stmts[s].kind.IfStmt?
    ensures ArenaWellFormed(WithElse(blocks, stmts, s, endPos).0, WithElse(blocks, stmts, s, endPos).1)
  {
    var r := WithElse(blocks, stmts, s, endPos);
    forall t | 0 <= t < |r.1| ensures StmtWellFormed(r.0, r.1, t) {
      assert StmtWellFormed(blocks, stmts, t);
    }
    forall b | 1 <= b < |r.0| ensures 0 <= r.0[b].owner < |r.1| && OwnsBlock(r.1[r.0[b].owner].kind, b) {
      assert r.0[b].owner == blocks[b].owner;
    }
  }
}
