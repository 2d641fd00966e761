/**
 * Per-request sequence bookkeeping of the inference server: one generation
 * branch (`Sequence`) with its token buffer, prompt split point, scheduling
 * phase and paged key/value-cache blocks, and one request (`SequenceGroup`)
 * holding its branches and its sampler.
 */
module Seq {
  import opened Wrappers
  import opened Config
  import Logits

  /** A vocabulary id (`u32`). */
  type Token = x: int | 0 <= x < 0x1_0000_0000

  /** A sequence id, unique per engine (`u32`). */
  type SeqId = x: int | 0 <= x < 0x1_0000_0000

  datatype FinishReason =
    | FoundEos          // the end-of-sequence token was generated
    | MaxTokensReached  // the request's token budget is spent
    | Aborted           // the engine was asked to abort the request
    | Failed            // the scheduler gave up on the sequence

  /** Where a sequence stands; only the terminal phase carries a reason. */
  datatype SchedulingPhase = Waiting | Running | Swapped | Finished(reason: FinishReason)

  /** What kind of forward step last extended a sequence. */
  datatype StepType = Prompt | Fixed(n: nat) | Gen

  /**
   * A handle on one physical cache block. The allocator that issues handles
   * and counts references is not part of this model; `Fork` hands out
   * another handle on the same block.
   */
  datatype BlockRef = BlockRef(index: nat)
  {
    function GetIndex(): nat
    {
      index
    }

    function Fork(): (b: BlockRef)
      ensures b.GetIndex() == GetIndex()
    {
      this
    }
  }

  /** Forks every handle of a block list, in order. */
  function ForkAll(blocks: seq<BlockRef>): (r: seq<BlockRef>)
    ensures |r| == |blocks|
    ensures forall i :: 0 <= i < |blocks| ==> r[i] == blocks[i].Fork()
  {
    seq(|blocks|, i requires 0 <= i < |blocks| => blocks[i].Fork())
  }

  /** No two handles of the list name the same physical block. */
  predicate DistinctBlocks(blocks: seq<BlockRef>)
  {
    forall i, j :: 0 <= i < j < |blocks| ==> blocks[i].GetIndex() != blocks[j].GetIndex()
  }

  /** What a request reports for one of its sequences. */
  datatype SeqOutput = SeqOutput(
    seqId: SeqId,
    outputTokens: seq<Token>,           // generated tokens only, without the prompt
    finishReason: Option<FinishReason>
  )

  /** What a request reports: one output per sequence. */
  datatype RequestOutput = RequestOutput(requestId: string, seqOutputs: seq<SeqOutput>)

  /** A nonzero multiple of a positive block size is at least one block away from zero. */
  lemma MultipleBounds(d: int, blockSize: nat)
    requires blockSize > 0
    ensures d >= 1 ==> d * blockSize >= blockSize
    ensures d <= -1 ==> d * blockSize <= -(blockSize as int)
  {
  }

  /** Slot `offset` of block `blockIndex` lies in that block, at that offset. */
  lemma SlotDivMod(blockIndex: nat, blockSize: nat, offset: nat)
    requires offset < blockSize
    ensures (blockIndex * blockSize + offset) / blockSize == blockIndex
    ensures (blockIndex * blockSize + offset) % blockSize == offset
  {
    var slot := blockIndex * blockSize + offset;
    var q, r := slot / blockSize, slot % blockSize;
    assert slot == q * blockSize + r;
    var d := blockIndex - q;
    assert d * blockSize == blockIndex * blockSize - q * blockSize;
    MultipleBounds(d, blockSize);
  }

  /** One generation branch of a request. */
  class Sequence {
    var seqId: SeqId
    var stepType: StepType
    /** The prompt tokens followed by the generated tokens. */
    var tokens: seq<Token>
    /** How many leading tokens are the prompt; fixed at creation. */
    const promptLen: nat
    var schedPhase: SchedulingPhase
    var gpuBlocks: seq<BlockRef>
    var cpuBlocks: seq<BlockRef>
    const blockSize: nat

    /** The prompt is a prefix of the token buffer. */
    ghost predicate Valid()
      reads this
    {
      promptLen <= |tokens|
    }

    /** A waiting sequence holding just the prompt, with no blocks assigned yet. */
    constructor (seqId: SeqId, tokens: seq<Token>, blockSize: nat)
      ensures Valid()
      ensures this.seqId == seqId && schedPhase == Waiting && stepType == Prompt
      ensures this.tokens == tokens && promptLen == |tokens|
      ensures gpuBlocks == [] && cpuBlocks == [] && this.blockSize == blockSize
    {
      this.seqId := seqId;
      schedPhase := Waiting;
      stepType := Prompt;
      this.tokens := [];
      promptLen := |tokens|;
      gpuBlocks := [];
      cpuBlocks := [];
      this.blockSize := blockSize;
      new;
      AppendTokensToBlocks(tokens);
    }

    /** A sequence built field by field. */
    constructor FromParts(seqId: SeqId, schedPhase: SchedulingPhase, stepType: StepType,
                          tokens: seq<Token>, promptLen: nat,
                          gpuBlocks: seq<BlockRef>, cpuBlocks: seq<BlockRef>, blockSize: nat)
      ensures this.seqId == seqId && this.schedPhase == schedPhase && this.stepType == stepType
      ensures this.tokens == tokens && this.promptLen == promptLen
      ensures this.gpuBlocks == gpuBlocks && this.cpuBlocks == cpuBlocks && this.blockSize == blockSize
    {
      this.seqId := seqId;
      this.schedPhase := schedPhase;
      this.stepType := stepType;
      this.tokens := tokens;
      this.promptLen := promptLen;
      this.gpuBlocks := gpuBlocks;
      this.cpuBlocks := cpuBlocks;
      this.blockSize := blockSize;
    }

    /** The number of tokens held, prompt included. */
    function GetLen(): (n: nat)
      reads this
      ensures Valid() ==> promptLen <= n
    {
      |tokens|
    }

    /** The number of generated tokens; the prompt never outgrows the buffer, so this never underflows. */
    function GetGenLen(): (n: nat)
      reads this
      requires Valid()
      ensures promptLen + n == GetLen()
    {
      |tokens| - promptLen
    }

    /**
     * The physical cache slot of logical position `position`: it lies in the
     * block that the position's block number names, at the position's offset
     * within its block.
     */
    function GetGpuSlot(position: nat): (slot: nat)
      reads this
      requires blockSize > 0
      requires position / blockSize < |gpuBlocks|
      ensures slot / blockSize == gpuBlocks[position / blockSize].GetIndex()
      ensures slot % blockSize == position % blockSize
    {
      var blockIndex := gpuBlocks[position / blockSize].GetIndex();
      var blockOffset := position % blockSize;
      SlotDivMod(blockIndex, blockSize, blockOffset);
      blockIndex * blockSize + blockOffset
    }

    /**
     * A new branch: same phase, step type, prompt length and block size,
     * forked block handles, and the parent's tokens twice over (the buffer is
     * cloned and then the parent's tokens are appended to it again).
     */
    method ForkAs(seqId: SeqId) returns (s: Sequence)
      requires Valid()
      ensures fresh(s) && s.Valid()
      ensures s.seqId == seqId && s.schedPhase == schedPhase && s.stepType == stepType
      ensures s.promptLen == promptLen && s.blockSize == blockSize
      ensures s.gpuBlocks == ForkAll(gpuBlocks) && s.cpuBlocks == ForkAll(cpuBlocks)
      ensures s.tokens == tokens + tokens
    {
      s := new Sequence.FromParts(seqId, schedPhase, stepType, tokens, promptLen,
                                  ForkAll(gpuBlocks), ForkAll(cpuBlocks), blockSize);
      s.AppendTokensToBlocks(tokens);
    }

    /** Extends the token buffer in place. */
    method AppendTokensToBlocks(tokenIds: seq<Token>)
      modifies this`tokens
      ensures tokens == old(tokens) + tokenIds
    {
      tokens := tokens + tokenIds;
    }

    /** Appends one token; nothing but the token buffer changes. */
    method AppendTokenId(tokenId: Token)
      requires Valid()
      modifies this`tokens
      ensures Valid()
      ensures tokens == old(tokens) + [tokenId]
    {
      AppendTokensToBlocks([tokenId]);
    }

    /** The reason the sequence finished, present exactly when it has. */
    function GetFinishReason(): (r: Option<FinishReason>)
      reads this
      ensures r.Some? <==> schedPhase.Finished?
      ensures r.Some? ==> schedPhase == Finished(r.value)
    {
      match schedPhase
      case Finished(reason) => Some(reason)
      case _ => None
    }

    function IsFinished(): (b: bool)
      reads this
      ensures b <==> schedPhase.Finished?
    {
      GetFinishReason().Some?
    }

    /** The generated suffix, with the sequence's id and finish reason. */
    function GetOutput(): (o: SeqOutput)
      reads this
      requires Valid()
      ensures o.seqId == seqId
      ensures tokens == tokens[..promptLen] + o.outputTokens
      ensures |o.outputTokens| == GetGenLen()
      ensures o.finishReason.Some? <==> IsFinished()
      ensures o.finishReason.Some? ==> schedPhase == Finished(o.finishReason.value)
    {
      SeqOutput(seqId, tokens[promptLen..], GetFinishReason())
    }
  }

  /** Two distinct positions of one sequence never share a slot when its blocks are distinct. */
  lemma GpuSlotInjective(s: Sequence, p: nat, q: nat)
    requires s.blockSize > 0
    requires p / s.blockSize < |s.gpuBlocks| && q / s.blockSize < |s.gpuBlocks|
    requires DistinctBlocks(s.gpuBlocks)
    requires p != q
    ensures s.GetGpuSlot(p) != s.GetGpuSlot(q)
  {
  }

  /** Sequences whose block lists share no block never share a slot. */
  lemma GpuSlotsOfDisjointSequences(s: Sequence, t: Sequence, p: nat, q: nat)
    requires s.blockSize == t.blockSize > 0
    requires p / s.blockSize < |s.gpuBlocks| && q / t.blockSize < |t.gpuBlocks|
    requires forall i, j :: 0 <= i < |s.gpuBlocks| && 0 <= j < |t.gpuBlocks| ==>
               s.gpuBlocks[i].GetIndex() != t.gpuBlocks[j].GetIndex()
    ensures s.GetGpuSlot(p) != t.GetGpuSlot(q)
  {
  }

  /** A fork reads and writes the same slots as its parent, until the allocator copies a block. */
  lemma ForkSharesGpuSlots(parent: Sequence, child: Sequence, p: nat)
    requires child.gpuBlocks == ForkAll(parent.gpuBlocks)
    requires child.blockSize == parent.blockSize > 0
    requires p / parent.blockSize < |parent.gpuBlocks|
    ensures child.GetGpuSlot(p) == parent.GetGpuSlot(p)
  {
  }

  /**
   * A fork's token buffer holds the parent's tokens twice, so its generated
   * suffix is the parent's generated suffix followed by the parent's whole
   * buffer: it differs from the parent's as soon as the parent holds a token.
   */
  lemma ForkRepeatsParentTokens(parent: Sequence, child: Sequence)
    requires parent.Valid()
    requires child.tokens == parent.tokens + parent.tokens
    requires child.promptLen == parent.promptLen
    ensures child.Valid()
    ensures child.GetGenLen() == parent.GetLen() + parent.GetGenLen()
    ensures child.GetOutput().outputTokens == parent.GetOutput().outputTokens + parent.tokens
    ensures parent.GetLen() > 0 ==> child.GetOutput().outputTokens != parent.GetOutput().outputTokens
  {
    var pl := parent.promptLen;
    assert (parent.tokens + parent.tokens)[pl..] == parent.tokens[pl..] + parent.tokens;
  }

  /** The branch is selected by the phase filter (no filter selects every branch). */
  predicate Matches(s: Sequence, status: Option<SchedulingPhase>)
    reads s
  {
    status.None? || s.schedPhase == status.value
  }

  /** One request: its branches, sampling configuration and sampler. */
  class SequenceGroup {
    var requestId: string
    var seqs: seq<Sequence>
    var samplingParams: SamplingParams
    var logitsProcessor: Logits.LogitsProcessor

    constructor (requestId: string, seqs: seq<Sequence>, samplingParams: SamplingParams,
                 logitsProcessor: Logits.LogitsProcessor)
      ensures this.requestId == requestId && this.seqs == seqs
      ensures this.samplingParams == samplingParams && this.logitsProcessor == logitsProcessor
    {
      this.requestId := requestId;
      this.seqs := seqs;
      this.samplingParams := samplingParams;
      this.logitsProcessor := logitsProcessor;
    }

    /** The positions, in increasing order, of the first `n` branches that the filter selects. */
    function Positions(status: Option<SchedulingPhase>, n: nat): (ix: seq<nat>)
      reads this, seqs
      requires n <= |seqs|
      ensures |ix| <= n
      ensures forall k :: 0 <= k < |ix| ==> ix[k] < n && Matches(seqs[ix[k]], status)
      ensures forall k, l :: 0 <= k < l < |ix| ==> ix[k] < ix[l]
      ensures forall i :: 0 <= i < n && Matches(seqs[i], status) ==> i in ix
    {
      if n == 0 then []
      else Positions(status, n - 1) + (if Matches(seqs[n - 1], status) then [n - 1] else [])
    }

    /** The branches in the given phase (all of them without a filter), in member order. */
    function GetSeqs(status: Option<SchedulingPhase>): (r: seq<Sequence>)
      reads this, seqs
      ensures status.None? ==> r == seqs
      ensures var ix := Positions(status, |seqs|);
              status.Some? ==> |r| == |ix| && forall k :: 0 <= k < |r| ==> r[k] == seqs[ix[k]]
    {
      match status
      case None => seqs
      case Some(_) =>
        var members, ix := seqs, Positions(status, |seqs|);
        seq(|ix|, k requires 0 <= k < |ix| => members[ix[k]])
    }

    /** How many branches are in the given phase (all of them without a filter). */
    function NumSeqs(status: Option<SchedulingPhase>): (n: nat)
      reads this, seqs
      ensures n <= |seqs|
      ensures status.None? ==> n == |seqs|
      ensures status.Some? ==> n == |Positions(status, |seqs|)|
    {
      |GetSeqs(status)|
    }

    /**
     * How many branches may run at once for the rest of the request: `best_of`
     * under beam search or before the group has expanded, otherwise the number
     * of running branches. Without beam search it covers every running branch.
     */
    function GetMaxNumRunningSeqs(): (n: nat)
      reads this, seqs
      ensures samplingParams.useBeamSearch ==> n == samplingParams.bestOf
      ensures !samplingParams.useBeamSearch && samplingParams.bestOf > |seqs| ==> n == samplingParams.bestOf
      ensures !samplingParams.useBeamSearch && samplingParams.bestOf <= |seqs| ==> n == NumSeqs(Some(Running))
      ensures !samplingParams.useBeamSearch ==> NumSeqs(Some(Running)) <= n
      ensures n <= samplingParams.bestOf || n <= |seqs|
    {
      if samplingParams.useBeamSearch then
        samplingParams.bestOf
      else if samplingParams.bestOf > NumSeqs(None) then
        samplingParams.bestOf
      else
        NumSeqs(Some(Running))
    }

    /** The sole branch; callers only use it on single-branch groups. */
    function OnlySeq(): (s: Sequence)
      reads this
      requires |seqs| == 1
      ensures seqs == [s]
    {
      seqs[0]
    }

    /** Adds a branch at the end; the existing branches stay as they were. */
    method Add(s: Sequence)
      modifies this`seqs
      ensures seqs == old(seqs) + [s]
    {
      seqs := seqs + [s];
    }

    /** Every branch has finished (vacuously so for a group with none). */
    function IsFinished(): (b: bool)
      reads this, seqs
      ensures b <==> forall s :: s in seqs ==> s.schedPhase.Finished?
    {
      forall i :: 0 <= i < |seqs| ==> seqs[i].IsFinished()
    }
  }

  /** Every branch that the phase filter selects is a member in that phase. */
  lemma SelectedIsMember(g: SequenceGroup, phase: SchedulingPhase, k: nat)
    requires k < |g.Positions(Some(phase), |g.seqs|)|
    ensures var s := g.seqs[g.Positions(Some(phase), |g.seqs|)[k]];
            s in g.seqs && s.schedPhase == phase
  {
  }

  /** Filtering by a phase keeps exactly the members in that phase, each once, in member order. */
  lemma {:induction false} GetSeqsSelectsPhase(g: SequenceGroup, phase: SchedulingPhase)
    ensures forall s :: s in g.GetSeqs(Some(phase)) <==> s in g.seqs && s.schedPhase == phase
  {
    var r, ix := g.GetSeqs(Some(phase)), g.Positions(Some(phase), |g.seqs|);
    forall s | s in g.seqs && s.schedPhase == phase
      ensures s in r
    {
      var i :| 0 <= i < |g.seqs| && g.seqs[i] == s;
      assert Matches(g.seqs[i], Some(phase));
      var k :| 0 <= k < |ix| && ix[k] == i;
      assert r[k] == s;
    }
    forall s | s in r
      ensures s in g.seqs && s.schedPhase == phase
    {
      var k :| 0 <= k < |r| && r[k] == s;
      SelectedIsMember(g, phase, k);
    }
  }

  /** A finished group has no running branch. */
  lemma FinishedGroupRunsNothing(g: SequenceGroup)
    requires g.IsFinished()
    ensures g.NumSeqs(Some(Running)) == 0
  {
    if g.NumSeqs(Some(Running)) > 0 {
      SelectedIsMember(g, Running, 0);
      assert false;
    }
  }

  /**
   * Once a group without beam search has expanded to `best_of` branches, the
   * bound is the number still running: with three branches of which two run
   * and one has finished, it is two, not three.
   */
  lemma ExpandedGroupCountsRunning(g: SequenceGroup)
    requires !g.samplingParams.useBeamSearch && g.samplingParams.bestOf == 3
    requires |g.seqs| == 3
    requires g.seqs[0].schedPhase == Running && g.seqs[1].schedPhase == Running
    requires g.seqs[2].schedPhase == Finished(FoundEos)
    ensures g.GetMaxNumRunningSeqs() == 2
  {
    var running := Some(Running);
    assert g.Positions(running, 0) == [];
    assert g.Positions(running, 1) == [0];
    assert g.Positions(running, 2) == [0, 1];
    assert g.Positions(running, 3) == [0, 1];
  }

  /** For a single-branch group, the group is finished exactly when its branch is. */
  lemma SingleBranchFinished(g: SequenceGroup)
    requires |g.seqs| == 1
    ensures g.IsFinished() <==> g.OnlySeq().IsFinished()
  {
  }
}
