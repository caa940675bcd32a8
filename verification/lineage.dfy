/** One channel's thread lineage: what a thread continues, and the two loops that walk
    it to its root, which must spell the same path. */
module Lineage {
  import opened Vocabulary

  /** A ledger block as the walk reads it. A reference row may name no conversation:
      a stored shape this code never writes, and refuses. */
  datatype Block = Block(id: int, reference: bool, ancestor: Option<int>)

  datatype ThreadOpening = ThreadOpening(ancestor: int, openingEnds: int)

  datatype AncestorUnnamed = AncestorUnnamed(blockId: int)

  /** The conversations' ledgers; a conversation that no longer reads has no blocks. */
  type Store = map<int, seq<Block>>

  function ListBlocks(store: Store, conversation: int): seq<Block> {
    if conversation in store then store[conversation] else []
  }

  // ─── A thread's own opening ────────────────────────────────────────────

  /** The position of the reference with the greatest id, the later of equals. */
  function GreatestReference(blocks: seq<Block>): (at: Option<nat>)
    ensures at.Some? ==> at.value < |blocks| && blocks[at.value].reference
    ensures at.Some? ==> forall k | 0 <= k < |blocks| && blocks[k].reference ::
              blocks[k].id <= blocks[at.value].id && (k > at.value ==> blocks[k].id < blocks[at.value].id)
    ensures at.None? ==> forall k | 0 <= k < |blocks| :: !blocks[k].reference
  {
    if |blocks| == 0 then None
    else
      var last := |blocks| - 1;
      var before := GreatestReference(blocks[..last]);
      if blocks[last].reference && (before.None? || blocks[before.value].id <= blocks[last].id)
      then Some(last) else before
  }

  /** The first position carrying an id. */
  function FirstWithId(blocks: seq<Block>, id: int): (at: nat)
    requires exists k | 0 <= k < |blocks| :: blocks[k].id == id
    ensures at < |blocks| && blocks[at].id == id
    ensures forall k | 0 <= k < at :: blocks[k].id != id
  {
    if blocks[0].id == id then 0 else 1 + FirstWithId(blocks[1..], id)
  }

  /** The thread's own reference is read by block id and not by position. A reference
      with no block behind it opens nothing. */
  function OwnOpening(blocks: seq<Block>): Result<Option<ThreadOpening>, AncestorUnnamed> {
    match GreatestReference(blocks)
    case None => Ok(None)
    case Some(at) =>
      var opening := blocks[at];
      var ends := FirstWithId(blocks, opening.id) + 1;
      if ends >= |blocks| then Ok(None)
      else match opening.ancestor
        case None => Err(AncestorUnnamed(opening.id))
        case Some(ancestor) => Ok(Some(ThreadOpening(ancestor, blocks[ends].id)))
  }

  /** The reference with the greatest id is at this position, the last of equals. */
  ghost predicate NewestReference(blocks: seq<Block>, at: int) {
    && 0 <= at < |blocks| && blocks[at].reference
    && forall k | 0 <= k < |blocks| && blocks[k].reference ::
      blocks[k].id <= blocks[at].id && (k > at ==> blocks[k].id < blocks[at].id)
  }

  ghost predicate FirstUnder(blocks: seq<Block>, id: int, first: int) {
    0 <= first < |blocks| && blocks[first].id == id && forall k | 0 <= k < first :: blocks[k].id != id
  }

  /** A thread opens with its newest reference, ends its opening at the block behind the
      first that carries the reference's id, and is refused where the reference names
      nobody; no reference, or no block behind it, opens nothing. */
  lemma OpeningExactly(blocks: seq<Block>, at: int, first: int)
    ensures (forall k | 0 <= k < |blocks| :: !blocks[k].reference) ==> OwnOpening(blocks) == Ok(None)
    ensures NewestReference(blocks, at) && FirstUnder(blocks, blocks[at].id, first) ==>
              OwnOpening(blocks) ==
              if first == |blocks| - 1 then Ok(None)
              else if blocks[at].ancestor.None? then Err(AncestorUnnamed(blocks[at].id))
              else Ok(Some(ThreadOpening(blocks[at].ancestor.value, blocks[first + 1].id)))
  {
    if NewestReference(blocks, at) && FirstUnder(blocks, blocks[at].id, first) {
      var found := GreatestReference(blocks);
      assert found == Some(at);
      assert FirstWithId(blocks, blocks[at].id) == first;
    }
  }

  /** Whatever inherited references ride along, and wherever they stand, the opening is
      the thread's own: the one its newest appends wrote. */
  lemma InheritedReferencesAreNotItsOwn(own: Block, digest: Block, inherited: seq<Block>)
    requires own.reference && own.ancestor.Some? && !digest.reference && digest.id > own.id
    requires forall k | 0 <= k < |inherited| :: inherited[k].id < own.id
    ensures OwnOpening([own, digest] + inherited) == Ok(Some(ThreadOpening(own.ancestor.value, digest.id)))
    ensures OwnOpening(inherited + [own, digest]) == Ok(Some(ThreadOpening(own.ancestor.value, digest.id)))
  {
    var front, back := [own, digest] + inherited, inherited + [own, digest];
    assert front[0] == own && front[1] == digest;
    assert back[|inherited|] == own && back[|inherited| + 1] == digest;
    assert forall k | 0 <= k < |front| && k != 0 && k != 1 :: front[k] == inherited[k - 2];
    assert GreatestReference(front).value == 0;
    assert GreatestReference(back).value == |inherited|;
    assert FirstWithId(back, own.id) == |inherited|;
  }

  // ─── What a lineage is ─────────────────────────────────────────────────

  /** One thread continues another that still reads. */
  ghost predicate Continues(store: Store, thread: int, ancestor: int) {
    var opening := OwnOpening(ListBlocks(store, thread));
    && opening.Ok? && opening.value.Some? && opening.value.value.ancestor == ancestor
    && ListBlocks(store, ancestor) != []
  }

  /** A path of continued threads, newest first, that never comes back. */
  ghost predicate Chain(store: Store, serving: int, path: seq<int>) {
    && |path| > 0 && path[0] == serving
    && (forall k | 0 <= k < |path| - 1 :: Continues(store, path[k], path[k + 1]))
    && (forall j, k | 0 <= j < k < |path| :: path[j] != path[k])
  }

  /** Nothing further to walk: the thread continues nothing, or a conversation that no
      longer reads, or one already walked. */
  ghost predicate Ends(store: Store, path: seq<int>)
    requires |path| > 0
  {
    var opening := OwnOpening(ListBlocks(store, path[|path| - 1]));
    && opening.Ok?
    && (opening.value.Some? ==>
          opening.value.value.ancestor in path || ListBlocks(store, opening.value.value.ancestor) == [])
  }

  ghost predicate IsLineage(store: Store, serving: int, path: seq<int>) {
    Chain(store, serving, path) && Ends(store, path)
  }

  ghost predicate OpensOn(store: Store, thread: int, ancestor: int) {
    && thread in store && ancestor in store && store[ancestor] != []
    && OwnOpening(store[thread]).Ok? && OwnOpening(store[thread]).value.Some?
    && OwnOpening(store[thread]).value.value.ancestor == ancestor
  }

  ghost predicate OpensNoFurther(store: Store, path: seq<int>)
    requires |path| > 0
  {
    var last := path[|path| - 1];
    last in store ==>
      && OwnOpening(store[last]).Ok?
      && (OwnOpening(store[last]).value.Some? ==>
            var ancestor := OwnOpening(store[last]).value.value.ancestor;
            ancestor in path || ancestor !in store || store[ancestor] == [])
  }

  /** What a lineage says of the stored ledgers: each conversation of it opens on the next,
      which still reads; and the last one opens on nothing, on one already walked, or on
      one that no longer reads. */
  lemma LineageExactly(store: Store, serving: int, path: seq<int>)
    ensures IsLineage(store, serving, path) <==>
            && |path| > 0 && path[0] == serving
            && (forall j, k | 0 <= j < k < |path| :: path[j] != path[k])
            && (forall k | 0 <= k < |path| - 1 :: OpensOn(store, path[k], path[k + 1]))
            && OpensNoFurther(store, path)
  {
    assert OwnOpening([]) == Ok(None);
    hide OwnOpening;
    forall a: int, b: int ensures Continues(store, a, b) <==> OpensOn(store, a, b) {
    }
  }

  /** The walk ran into the stored shape it refuses. */
  ghost predicate Refuses(store: Store, serving: int, path: seq<int>, error: AncestorUnnamed) {
    Chain(store, serving, path) && OwnOpening(ListBlocks(store, path[|path| - 1])) == Err(error)
  }

  lemma {:induction false} ChainsAgree(store: Store, serving: int, p: seq<int>, q: seq<int>)
    requires Chain(store, serving, p) && Chain(store, serving, q) && |p| <= |q|
    ensures p == q[..|p|]
  {
    if |p| > 1 {
      var front := p[..|p| - 1];
      assert Chain(store, serving, front);
      ChainsAgree(store, serving, front, q);
      assert front[|front| - 1] == q[|p| - 2];
      assert Continues(store, p[|p| - 2], p[|p| - 1]) && Continues(store, q[|p| - 2], q[|p| - 1]);
    }
  }

  lemma LongerDoesNotEnd(store: Store, serving: int, p: seq<int>, q: seq<int>)
    requires Chain(store, serving, p) && Chain(store, serving, q) && |q| > |p|
    ensures !Ends(store, p)
  {
    ChainsAgree(store, serving, p, q);
    assert p[|p| - 1] == q[|p| - 1];
    assert Continues(store, q[|p| - 1], q[|p|]);
    forall k | 0 <= k < |p| ensures p[k] != q[|p|] {
      assert p[k] == q[k];
    }
  }

  lemma EndedIsNoLonger(store: Store, serving: int, p: seq<int>, q: seq<int>)
    requires IsLineage(store, serving, p) && Chain(store, serving, q)
    ensures |q| <= |p|
  {
    if |q| > |p| {
      LongerDoesNotEnd(store, serving, p, q);
    }
  }

  /** From one serving thread there is one lineage, and no lineage where a walk is
      refused: whatever walks it comes to the same path. */
  lemma OneLineage(store: Store, serving: int, p: seq<int>, q: seq<int>)
    requires IsLineage(store, serving, p)
    ensures IsLineage(store, serving, q) ==> p == q
    ensures forall error :: !Refuses(store, serving, q, error)
  {
    if Chain(store, serving, q) {
      EndedIsNoLonger(store, serving, p, q);
      if IsLineage(store, serving, q) {
        EndedIsNoLonger(store, serving, q, p);
        ChainsAgree(store, serving, p, q);
      } else if |q| == |p| {
        ChainsAgree(store, serving, q, p);
      } else {
        ChainsAgree(store, serving, q, p);
        assert Continues(store, p[|q| - 1], p[|q|]);
      }
    }
  }

  /** A chain walks only conversations that read, each once: this is what bounds both
      loops on any graph of references, cycles of reissued ids included. */
  lemma ChainIsBounded(store: Store, serving: int, path: seq<int>)
    requires Chain(store, serving, path)
    ensures |path| <= |store.Keys| + 1
  {
    var members := set k | 0 <= k < |path| :: path[k];
    DistinctCount(path, members);
    forall c | c in members ensures c in store.Keys + {serving} {
      var k :| 0 <= k < |path| && path[k] == c;
      if k > 0 { assert Continues(store, path[k - 1], path[k]); }
    }
    Contained(members, store.Keys + {serving});
  }

  lemma {:induction false} DistinctCount(path: seq<int>, members: set<int>)
    requires forall j, k | 0 <= j < k < |path| :: path[j] != path[k]
    requires members == set k | 0 <= k < |path| :: path[k]
    ensures |members| == |path|
  {
    if |path| > 0 {
      var front, last := path[..|path| - 1], path[|path| - 1];
      var fewer := set k | 0 <= k < |front| :: front[k];
      DistinctCount(front, fewer);
      assert last !in fewer;
      assert members == fewer + {last};
    }
  }

  lemma {:induction false} Contained(a: set<int>, b: set<int>)
    requires a <= b
    ensures |a| <= |b|
  {
    assert b == a + (b - a);
  }

  lemma ChainStarts(store: Store, serving: int)
    ensures Chain(store, serving, [serving])
  {
  }

  lemma ChainGrows(store: Store, serving: int, path: seq<int>, opening: ThreadOpening)
    requires Chain(store, serving, path) && OwnOpening(ListBlocks(store, path[|path| - 1])) == Ok(Some(opening))
    requires ListBlocks(store, opening.ancestor) != [] && opening.ancestor !in path
    ensures Chain(store, serving, path + [opening.ancestor]) && |path| <= |store.Keys|
  {
    var longer := path + [opening.ancestor];
    assert forall k | 0 <= k < |path| :: longer[k] == path[k];
    assert Continues(store, path[|path| - 1], opening.ancestor);
    ChainIsBounded(store, serving, longer);
  }

  // ─── The lookup scope's walk ───────────────────────────────────────────

  /** Every conversation that has served the channel, newest first. */
  method ServingLineage(store: Store, serving: int) returns (r: Result<seq<int>, AncestorUnnamed>)
    ensures Walked(store, serving, r)
  {
    var walked := [serving];
    var blocks := ListBlocks(store, serving);
    while true
      invariant Chain(store, serving, walked)
      invariant blocks == ListBlocks(store, walked[|walked| - 1])
      decreases |store.Keys| + 1 - |walked|
    {
      match OwnOpening(blocks) {
        case Err(error) =>
          assert Refuses(store, serving, walked, error);
          return Err(error);
        case Ok(None) => return Ok(walked);
        case Ok(Some(opening)) =>
          if opening.ancestor in walked {
            return Ok(walked);
          }
          var ancestorBlocks := ListBlocks(store, opening.ancestor);
          if |ancestorBlocks| == 0 {
            return Ok(walked);
          }
          ChainGrows(store, serving, walked, opening);
          walked := walked + [opening.ancestor];
          blocks := ancestorBlocks;
      }
    }
  }

  // ─── The scrub's walk ──────────────────────────────────────────────────

  datatype StrippedHop = StrippedHop(conversation: int, openingEnds: int, stripped: seq<int>)

  /** A compacted ancestry with what each conversation must lose, `below` oldest first. */
  datatype StrippedLineage = StrippedLineage(root: int, inRoot: seq<int>, below: seq<StrippedHop>, serving: StrippedHop)

  function Reversed(hops: seq<StrippedHop>): (reversed: seq<StrippedHop>)
    ensures |reversed| == |hops|
    ensures forall k | 0 <= k < |hops| :: reversed[k] == hops[|hops| - 1 - k]
  {
    seq(|hops|, k requires 0 <= k < |hops| => hops[|hops| - 1 - k])
  }

  function Conversations(hops: seq<StrippedHop>): (conversations: seq<int>)
    ensures |conversations| == |hops|
    ensures forall k | 0 <= k < |hops| :: conversations[k] == hops[k].conversation
  {
    seq(|hops|, k requires 0 <= k < |hops| => hops[k].conversation)
  }

  /** The path a stripped lineage spells, newest first. */
  function Spelled(lineage: StrippedLineage): seq<int> {
    [lineage.serving.conversation] + Conversations(Reversed(lineage.below)) + [lineage.root]
  }

  /** The hop carries its thread's own opening and what its own ledger must lose. */
  ghost predicate HopReads(store: Store, hop: StrippedHop, stripped: seq<Block> -> seq<int>) {
    var blocks := ListBlocks(store, hop.conversation);
    && hop.stripped == stripped(blocks)
    && OwnOpening(blocks).Ok? && OwnOpening(blocks).value.Some?
    && hop.openingEnds == OwnOpening(blocks).value.value.openingEnds
  }

  ghost predicate StripsNothing(store: Store, path: seq<int>, stripped: seq<Block> -> seq<int>) {
    forall k | 0 <= k < |path| :: stripped(ListBlocks(store, path[k])) == []
  }

  /** What the scrub's walk answers over one lineage: nothing when the thread has no
      ancestry or nothing in it is to go, and otherwise exactly that path. */
  ghost predicate Strips(store: Store, path: seq<int>, stripped: seq<Block> -> seq<int>,
                         answer: Option<StrippedLineage>)
    requires |path| > 0
  {
    match answer
    case None => |path| == 1 || StripsNothing(store, path, stripped)
    case Some(lineage) =>
      && |path| > 1 && !StripsNothing(store, path, stripped)
      && Spelled(lineage) == path
      && HopReads(store, lineage.serving, stripped)
      && (forall k | 0 <= k < |lineage.below| :: HopReads(store, lineage.below[k], stripped))
      && lineage.inRoot == stripped(ListBlocks(store, lineage.root))
  }

  /** The serving thread's whole ancestry with the blocks each conversation must lose. */
  method StripLineage(store: Store, serving: int, stripped: seq<Block> -> seq<int>)
    returns (r: Result<Option<StrippedLineage>, AncestorUnnamed>)
    ensures Scrubbed(store, serving, stripped, r)
  {
    hide OwnOpening, Chain, FirstWithId;
    ChainStarts(store, serving);
    var hops: seq<StrippedHop> := [];
    var walked := {serving};
    var current := serving;
    var blocks := ListBlocks(store, serving);
    ghost var path := [serving];
    var walking := true;
    while walking
      invariant Chain(store, serving, path) && path == Conversations(hops) + [current]
      invariant forall c :: c in walked <==> c in path
      invariant blocks == ListBlocks(store, current)
      invariant forall k | 0 <= k < |hops| :: HopReads(store, hops[k], stripped)
      invariant !walking ==> Ends(store, path)
      decreases |store.Keys| + 1 - |path|, walking
    {
      match OwnOpening(blocks) {
        case Err(error) =>
          assert Refuses(store, serving, path, error);
          return Err(error);
        case Ok(None) => walking := false;
        case Ok(Some(opening)) =>
          var ancestorBlocks := ListBlocks(store, opening.ancestor);
          if |ancestorBlocks| == 0 || opening.ancestor in walked {
            walking := false;
          } else {
            ChainGrows(store, serving, path, opening);
            walked := walked + {opening.ancestor};
            hops := hops + [StrippedHop(current, opening.openingEnds, stripped(blocks))];
            current := opening.ancestor;
            blocks := ancestorBlocks;
            path := path + [current];
          }
      }
    }
    if |hops| == 0 {
      assert Strips(store, path, stripped, None);
      return Ok(None);
    }
    FoldedAnswer(store, path, stripped, current, hops);
    hide Strips, Ends;
    var below := Reversed(hops[1..]);
    var inRoot := stripped(blocks);
    if inRoot == [] && hops[0].stripped == [] && forall k | 0 <= k < |below| :: below[k].stripped == [] {
      return Ok(None);
    }
    r := Ok(Some(StrippedLineage(current, inRoot, below, hops[0])));
  }

  /** A path is stripped of nothing exactly when none of its parts is. */
  lemma StrippedByParts(store: Store, path: seq<int>, stripped: seq<Block> -> seq<int>,
                        root: int, hops: seq<StrippedHop>)
    requires path == Conversations(hops) + [root]
    requires forall k | 0 <= k < |hops| :: HopReads(store, hops[k], stripped)
    ensures StripsNothing(store, path, stripped) <==>
            stripped(ListBlocks(store, root)) == [] && forall k | 0 <= k < |hops| :: hops[k].stripped == []
  {
    forall k | 0 <= k < |hops| ensures hops[k].stripped == stripped(ListBlocks(store, path[k])) {
      assert HopReads(store, hops[k], stripped) && path[k] == hops[k].conversation;
    }
    assert path[|hops|] == root;
  }

  lemma FoldedSpellsThePath(path: seq<int>, inRoot: seq<int>, root: int, hops: seq<StrippedHop>)
    requires |hops| > 0 && path == Conversations(hops) + [root]
    ensures Spelled(StrippedLineage(root, inRoot, Reversed(hops[1..]), hops[0])) == path
  {
  }

  lemma FoldedHops(hops: seq<StrippedHop>)
    requires |hops| > 0
    ensures var below := Reversed(hops[1..]);
            && (forall k | 0 <= k < |below| :: below[k] == hops[|hops| - 1 - k])
            && (forall k | 0 < k < |hops| :: hops[k] == below[|hops| - 1 - k])
  {
  }

  /** The walk's hops, folded into what the scrub is handed. */
  lemma FoldedAnswer(store: Store, path: seq<int>, stripped: seq<Block> -> seq<int>, root: int, hops: seq<StrippedHop>)
    requires |hops| > 0 && path == Conversations(hops) + [root]
    requires forall k | 0 <= k < |hops| :: HopReads(store, hops[k], stripped)
    ensures var lineage := StrippedLineage(root, stripped(ListBlocks(store, root)), Reversed(hops[1..]), hops[0]);
            var nothing := lineage.inRoot == [] && hops[0].stripped == []
                           && forall k | 0 <= k < |lineage.below| :: lineage.below[k].stripped == [];
            Strips(store, path, stripped, if nothing then None else Some(lineage))
  {
    hide StripsNothing, HopReads, Spelled, Reversed, ListBlocks;
    StrippedByParts(store, path, stripped, root, hops);
    FoldedHops(hops);
    FoldedSpellsThePath(path, stripped(ListBlocks(store, root)), root, hops);
  }

  /** What the lookup's walk may answer, and what the scrub's may. */
  ghost predicate Walked(store: Store, serving: int, walked: Result<seq<int>, AncestorUnnamed>) {
    match walked
    case Ok(path) => IsLineage(store, serving, path)
    case Err(error) => exists path :: Refuses(store, serving, path, error)
  }

  ghost predicate Scrubbed(store: Store, serving: int, stripped: seq<Block> -> seq<int>,
                           scrubbed: Result<Option<StrippedLineage>, AncestorUnnamed>)
  {
    match scrubbed
    case Ok(answer) => exists path :: IsLineage(store, serving, path) && Strips(store, path, stripped, answer)
    case Err(error) => exists path :: Refuses(store, serving, path, error)
  }

  /** The two loops agree: over one store they fail together, and whenever the scrub
      answers a lineage it spells the very path the lookup walked, hop by hop. */
  lemma TheWalksAgree(store: Store, serving: int, stripped: seq<Block> -> seq<int>,
                      walked: Result<seq<int>, AncestorUnnamed>,
                      scrubbed: Result<Option<StrippedLineage>, AncestorUnnamed>)
    requires Walked(store, serving, walked) && Scrubbed(store, serving, stripped, scrubbed)
    ensures walked.Ok? <==> scrubbed.Ok?
    ensures walked.Ok? ==> Strips(store, walked.value, stripped, scrubbed.value)
  {
    if walked.Ok? {
      if scrubbed.Ok? {
        var path :| IsLineage(store, serving, path) && Strips(store, path, stripped, scrubbed.value);
        OneLineage(store, serving, walked.value, path);
      } else {
        var path :| Refuses(store, serving, path, scrubbed.error);
        OneLineage(store, serving, walked.value, path);
      }
    } else if scrubbed.Ok? {
      var path :| IsLineage(store, serving, path) && Strips(store, path, stripped, scrubbed.value);
      var other :| Refuses(store, serving, other, walked.error);
      OneLineage(store, serving, path, other);
    }
  }
}
