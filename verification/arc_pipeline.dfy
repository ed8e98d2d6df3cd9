/** The plumbing around the ARC prompts: which tasks run, how prompts are
    paired with their token ids, and where each process stores its outputs. */
module ArcPipeline {
  import opened Wrappers
  import opened Strings

  /** The `task` setting: one task name or a list of them. */
  datatype TaskConfig = Single(task: string) | Many(tasks: seq<string>)

  /** `get_task_names`: a list is used as it is, a single task becomes a
      one-element list. */
  function GetTaskNames(cfg: TaskConfig): (r: seq<string>)
    ensures cfg.Many? ==> r == cfg.tasks
    ensures cfg.Single? ==> |r| == 1 && r[0] == cfg.task
    ensures forall name :: name in r <==> if cfg.Single? then name == cfg.task else name in cfg.tasks
  {
    match cfg
    case Many(tasks) => tasks
    case Single(task) => [task]
  }

  /** A rendered prompt with its token ids. */
  datatype InferenceInput = InferenceInput(text: string, tokenIds: seq<int>)

  /** `zip(prompts, token_ids)`: pairs in order, as many as the shorter list. */
  function MakeInputs(prompts: seq<string>, tokenIds: seq<seq<int>>): (r: seq<InferenceInput>)
    ensures |r| == if |prompts| <= |tokenIds| then |prompts| else |tokenIds|
    ensures forall i :: 0 <= i < |r| ==> r[i].text == prompts[i] && r[i].tokenIds == tokenIds[i]
    decreases |prompts|
  {
    if |prompts| == 0 || |tokenIds| == 0 then []
    else [InferenceInput(prompts[0], tokenIds[0])] + MakeInputs(prompts[1..], tokenIds[1..])
  }

  /** The texts of the inputs are the prompts, when the tokenizer returns one
      id list per prompt. */
  lemma InputsKeepPrompts(prompts: seq<string>, tokenIds: seq<seq<int>>)
    requires |prompts| == |tokenIds|
    ensures var inputs := MakeInputs(prompts, tokenIds);
            (seq(|inputs|, i requires 0 <= i < |inputs| => inputs[i].text)) == prompts
  {
  }

  /** The process-group state a process observes: whether distributed support
      is available, whether a group is initialised, and this process's rank
      within it. */
  datatype ExecContext = ExecContext(available: bool, initialized: bool, rank: nat)

  /** `get_rank`: the group rank when a group is available and initialised,
      0 otherwise. */
  function GetRank(ctx: ExecContext): (r: nat)
    ensures !(ctx.available && ctx.initialized) ==> r == 0
    ensures ctx.available && ctx.initialized ==> r == ctx.rank
  {
    if !ctx.available then 0
    else if !ctx.initialized then 0
    else ctx.rank
  }

  function TaskDir(task: string): string {
    ".cache/" + task
  }

  const OutputStem: string := "/outputs"
  const PickleSuffix: string := ".pkl"

  /** The path `save_data` writes: rank-keyed when a group is initialised,
      unkeyed otherwise. */
  function OutputPath(task: string, ctx: ExecContext): (path: string)
    ensures |path| >= |TaskDir(task) + OutputStem| + |PickleSuffix|
    ensures !ctx.initialized ==> path == ".cache/" + task + "/outputs.pkl"
    ensures path[..|TaskDir(task) + OutputStem|] == TaskDir(task) + OutputStem
    ensures path[|path| - |PickleSuffix|..] == PickleSuffix
  {
    if ctx.initialized then TaskDir(task) + OutputStem + "_" + NatToDecimal(GetRank(ctx)) + PickleSuffix
    else TaskDir(task) + OutputStem + PickleSuffix
  }

  /** Reads a path of `task` back: Some(rank) for a rank-keyed output file
      whose rank is spelled as `f"{rank}"` spells it, None for anything else
      (the unkeyed file and zero-padded ranks included). */
  function RankOfPath(task: string, path: string): (r: Option<nat>)
    ensures r.Some? ==> path == TaskDir(task) + OutputStem + "_" + NatToDecimal(r.value) + PickleSuffix
  {
    var base := TaskDir(task) + OutputStem;
    if |path| < |base| + |PickleSuffix| + 2 || path[..|base|] != base then None
    else
      var key := path[|base|..];
      var digits := key[1..|key| - |PickleSuffix|];
      if key[0] == '_' && key[|key| - |PickleSuffix|..] == PickleSuffix && IsCanonicalDecimal(digits) then
        assert path == base + key;
        assert key == "_" + digits + PickleSuffix;
        CanonicalDecimalRoundTrip(digits);
        Some(DecimalValue(digits))
      else None
  }

  /** The rank is recovered from the path it keys, and the unkeyed path
      carries none. */
  lemma RankOfOutputPath(task: string, ctx: ExecContext)
    ensures RankOfPath(task, OutputPath(task, ctx)) == if ctx.initialized then Some(GetRank(ctx)) else None
  {
    var base := TaskDir(task) + OutputStem;
    var path := OutputPath(task, ctx);
    if ctx.initialized {
      var digits := NatToDecimal(GetRank(ctx));
      assert path == base + ("_" + digits + PickleSuffix);
      var key := path[|base|..];
      assert key == "_" + digits + PickleSuffix;
      assert key[1..|key| - |PickleSuffix|] == digits;
      DecimalRoundTrip(GetRank(ctx));
    } else {
      assert |path| == |base| + |PickleSuffix|;
    }
  }

  /** Peers of one initialised group with different ranks never write the
      same file for a task. */
  lemma DistinctRanksDistinctPaths(task: string, a: ExecContext, b: ExecContext)
    requires a.available && a.initialized && b.available && b.initialized
    requires a.rank != b.rank
    ensures OutputPath(task, a) != OutputPath(task, b)
  {
    RankOfOutputPath(task, a);
    RankOfOutputPath(task, b);
  }

  /** A rank-keyed path never coincides with the unkeyed one. */
  lemma KeyedPathIsNotUnkeyed(task: string, a: ExecContext, b: ExecContext)
    requires a.initialized && !b.initialized
    ensures OutputPath(task, a) != OutputPath(task, b)
  {
    RankOfOutputPath(task, a);
    RankOfOutputPath(task, b);
  }

  /** With a group of rank 2 the file is `outputs_2.pkl`; without one it is
      `outputs.pkl`. */
  lemma RankTwoPath(task: string)
    ensures OutputPath(task, ExecContext(true, true, 2)) == ".cache/" + task + "/outputs_2.pkl"
    ensures OutputPath(task, ExecContext(true, false, 2)) == ".cache/" + task + "/outputs.pkl"
  {
  }
}
