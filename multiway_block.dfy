/** MultiWayBlock itself (lib/multiwayblock.py:103-208): the shared config
    object that make_path writes to, the block's fields and its built
    paths, and the three loops of the source (make_path, the path loop of
    _forward_each_paths and the sum fusion of forward) as methods, each
    proved against the functions of ForwardSpec or against BuildUpTo below.

    The `block` factory of line 151 is code this model cannot see: it is a
    parameter, a function from the config's current values to a path block
    (None when it raises).  The block it returns is built for the width in
    `config.hidden_size` at that moment.
 */
module MultiWay {
  import opened IndexMath
  import opened Reshape
  import opened PathPlan
  import opened ForwardSpec

  /** The values of the config fields the block reads. */
  datatype ConfigValue = ConfigValue(
    hiddenSize: nat, numPath: int, direction: int, pixshufFactor: int, concat: bool)

  /** The config object; make_path writes `hidden_size` in place. */
  class Config {
    var hiddenSize: nat
    var numPath: int
    var direction: int
    var pixshufFactor: int
    var concat: bool

    function Snapshot(): ConfigValue
      reads this
    {
      ConfigValue(hiddenSize, numPath, direction, pixshufFactor, concat)
    }

    constructor (v: ConfigValue)
      ensures Snapshot() == v
    {
      hiddenSize := v.hiddenSize;
      numPath := v.numPath;
      direction := v.direction;
      pixshufFactor := v.pixshufFactor;
      concat := v.concat;
    }
  }

  /** `block(config, False)`: what the caller's factory builds from the
      config as it is when called, or None when it raises. */
  type BlockFactory = ConfigValue -> Option<seq<int> -> BlockOutput>

  /** The block's fields that make_path reads. */
  datatype PathParams = PathParams(dim: nat, direction: int, median: int, f: int)

  /** Where make_path stands after some paths: still building, with the
      paths so far and the last width written to `config.hidden_size`, or
      stopped by an exception, with the value `hidden_size` was left at. */
  datatype BuildState =
    | Building(paths: seq<PathBlock>, hiddenSize: nat)
    | Failed(error: BuildError, hiddenSize: nat)

  /** Path i builds: its width is defined and the factory accepts it. */
  predicate PathBuilds(p: PathParams, cfg: ConfigValue, factory: BlockFactory, i: int)
    requires i >= 1
  {
    var w := PathWidth(p.dim, p.direction, p.median, p.f, i);
    w.Ok? && factory(cfg.(hiddenSize := w.value)).Some?
  }

  /** The body of make_path's loop for path i (lines 136-151). */
  function BuildStep(p: PathParams, cfg: ConfigValue, factory: BlockFactory, i: int, paths: seq<PathBlock>, hs: nat): (s: BuildState)
    requires i >= 1
    ensures s.Building? <==> PathBuilds(p, cfg, factory, i)
    ensures s.Building? ==> |s.paths| == |paths| + 1 && s.paths[..|paths|] == paths
    ensures s.Building? ==> s.paths[|paths|].width == s.hiddenSize
    ensures s.Building? ==> PathWidth(p.dim, p.direction, p.median, p.f, i) == Ok(s.hiddenSize)
    ensures s.Failed? ==> (s.error == ZeroDivision(i) && s.hiddenSize == hs) || s.error == BlockRejected(i)
  {
    match PathWidth(p.dim, p.direction, p.median, p.f, i)
    case Err(e) => Failed(e, hs)
    case Ok(w) =>
      match factory(cfg.(hiddenSize := w))
      case None => Failed(BlockRejected(i), w)
      case Some(run) => Building(paths + [PathBlock(w, run)], w)
  }

  /** make_path's loop after paths 1..count, starting from the config
      values `cfg`; an exception stops it. */
  function BuildUpTo(p: PathParams, cfg: ConfigValue, factory: BlockFactory, count: nat): (s: BuildState)
    ensures s.Building? ==> |s.paths| == count
    ensures s.Failed? ==> (s.error.ZeroDivision? || s.error.BlockRejected?) && 1 <= s.error.path <= count
  {
    if count == 0 then Building([], cfg.hiddenSize)
    else
      match BuildUpTo(p, cfg, factory, count - 1)
      case Failed(e, hs) => Failed(e, hs)
      case Building(paths, hs) => BuildStep(p, cfg, factory, count, paths, hs)
  }

  /** make_path builds every path exactly when each path's width is
      defined and the factory accepts it. */
  lemma {:induction false} BuildSucceedsIff(p: PathParams, cfg: ConfigValue, factory: BlockFactory, count: nat)
    ensures BuildUpTo(p, cfg, factory, count).Building? <==>
      forall i :: 1 <= i <= count ==> PathBuilds(p, cfg, factory, i)
  {
    if count > 0 {
      BuildSucceedsIff(p, cfg, factory, count - 1);
      if forall i :: 1 <= i <= count ==> PathBuilds(p, cfg, factory, i) {
        assert PathBuilds(p, cfg, factory, count);
      }
      if BuildUpTo(p, cfg, factory, count).Building? {
        assert BuildUpTo(p, cfg, factory, count - 1).Building?;
        assert PathBuilds(p, cfg, factory, count);
      }
    }
  }

  /** A factory whose blocks split their width into `numHeads` attention
      heads: it raises, as MultiHeadSelfAttention does at line 35, when the
      width `config.hidden_size` does not split evenly. */
  function HeadSplitFactory(numHeads: int, run: seq<int> -> BlockOutput): BlockFactory {
    (cfg: ConfigValue) => if HeadDim(cfg.hiddenSize, numHeads).Ok? then Some(run) else None
  }

  /** With such a factory, make_path builds every path exactly when each
      path's width is defined and splits into the heads. */
  lemma HeadSplitBuildIff(p: PathParams, cfg: ConfigValue, numHeads: int, run: seq<int> -> BlockOutput, count: nat)
    ensures BuildUpTo(p, cfg, HeadSplitFactory(numHeads, run), count).Building? <==>
      forall i :: 1 <= i <= count ==>
        PathWidth(p.dim, p.direction, p.median, p.f, i).Ok? &&
        HeadDim(PathWidth(p.dim, p.direction, p.median, p.f, i).value, numHeads).Ok?
  {
    BuildSucceedsIff(p, cfg, HeadSplitFactory(numHeads, run), count);
  }

  /** hidden_size 64, num_path 3, direction 2, f 2 and 8 heads: paths 1 and 2
      (64 and 16 channels) build, path 3 (4 channels) is rejected, and the
      config is left with hidden_size 4. */
  lemma HeadSplitRejectsShrunkPath(run: seq<int> -> BlockOutput)
    ensures var cfg := ConfigValue(64, 3, 2, 2, false);
      BuildUpTo(PathParams(64, 2, Median(3), 2), cfg, HeadSplitFactory(8, run), 3) == Failed(BlockRejected(3), 4)
  {
    var p := PathParams(64, 2, Median(3), 2);
    var cfg := ConfigValue(64, 3, 2, 2, false);
    var factory := HeadSplitFactory(8, run);
    assert Pow(2, 2) == 4 && Pow(2, 4) == 16;
    assert PathWidth(64, 2, 2, 2, 2) == Ok(16);
    assert PathWidth(64, 2, 2, 2, 3) == Ok(4);
    assert BuildUpTo(p, cfg, factory, 1) == Building([PathBlock(64, run)], 64);
    assert BuildUpTo(p, cfg, factory, 2) == Building([PathBlock(64, run), PathBlock(16, run)], 16);
  }

  /** One more pass of make_path's loop, for path i, after paths
      1..i-1 were built (next == i + 1 is the loop's next index). */
  lemma BuildAdvance(p: PathParams, cfg: ConfigValue, factory: BlockFactory, i: int, next: int)
    requires i >= 1 && next == i + 1
    ensures var prev := BuildUpTo(p, cfg, factory, i - 1);
      prev.Building? ==>
        && BuildUpTo(p, cfg, factory, i) == BuildStep(p, cfg, factory, i, prev.paths, prev.hiddenSize)
        && BuildUpTo(p, cfg, factory, next - 1) == BuildUpTo(p, cfg, factory, i)
  {
  }

  /** An exception ends make_path: the later paths change nothing. */
  lemma {:induction false} BuildFailureSticks(p: PathParams, cfg: ConfigValue, factory: BlockFactory, i: nat, count: nat)
    requires i <= count && BuildUpTo(p, cfg, factory, i).Failed?
    ensures BuildUpTo(p, cfg, factory, count) == BuildUpTo(p, cfg, factory, i)
    decreases count
  {
    if i < count {
      BuildFailureSticks(p, cfg, factory, i, count - 1);
    }
  }

  /** After a complete build there are `count` paths; path{i} was built by
      the factory from the config with `hidden_size` set to its width of
      the table, and `hidden_size` holds the last width written. */
  lemma {:induction false} BuiltPaths(p: PathParams, cfg: ConfigValue, factory: BlockFactory, count: nat)
    requires BuildUpTo(p, cfg, factory, count).Building?
    ensures var s := BuildUpTo(p, cfg, factory, count);
      && |s.paths| == count
      && (forall j :: 0 <= j < count ==>
            PathWidth(p.dim, p.direction, p.median, p.f, j + 1) == Ok(s.paths[j].width) &&
            factory(cfg.(hiddenSize := s.paths[j].width)) == Some(s.paths[j].run))
      && s.hiddenSize == if count == 0 then cfg.hiddenSize else s.paths[count - 1].width
  {
    if count > 0 {
      BuiltPaths(p, cfg, factory, count - 1);
    }
  }

  /** A failed build stops at the first path that does not build: a
      division by zero leaves `hidden_size` at the previous path's width (or
      untouched at path 1); a rejected block leaves it at that path's width. */
  lemma {:induction false} BuildFailure(p: PathParams, cfg: ConfigValue, factory: BlockFactory, count: nat)
    requires BuildUpTo(p, cfg, factory, count).Failed?
    ensures var s := BuildUpTo(p, cfg, factory, count);
      && (s.error.ZeroDivision? || s.error.BlockRejected?)
      && 1 <= s.error.path <= count
      && (forall i :: 1 <= i < s.error.path ==> PathBuilds(p, cfg, factory, i))
      && !PathBuilds(p, cfg, factory, s.error.path)
      && (s.error.ZeroDivision? ==>
            && PathWidth(p.dim, p.direction, p.median, p.f, s.error.path).Err?
            && (s.error.path == 1 ==> s.hiddenSize == cfg.hiddenSize)
            && (s.error.path > 1 ==> PathWidth(p.dim, p.direction, p.median, p.f, s.error.path - 1) == Ok(s.hiddenSize)))
      && (s.error.BlockRejected? ==>
            PathWidth(p.dim, p.direction, p.median, p.f, s.error.path) == Ok(s.hiddenSize))
  {
    var prev := BuildUpTo(p, cfg, factory, count - 1);
    if prev.Failed? {
      BuildFailure(p, cfg, factory, count - 1);
    } else {
      BuildSucceedsIff(p, cfg, factory, count - 1);
      BuiltPaths(p, cfg, factory, count - 1);
      match PathWidth(p.dim, p.direction, p.median, p.f, count)
      case Err(e) =>
        assert e == ZeroDivision(count);
        if count > 1 {
          assert PathWidth(p.dim, p.direction, p.median, p.f, count - 1) == Ok(prev.paths[count - 2].width);
        }
      case Ok(w) =>
    }
  }

  class MultiWayBlock {
    var dim: nat
    var numPath: int
    var median: int
    var totalDim: int
    var pixshufFactor: int
    var direction: int
    var concat: bool
    /** path1 .. path{num_path}, in order. */
    var paths: seq<PathBlock>
    /** The widths of `self.norm` and `self.fc` (lines 128-130): a layer
        norm over total_dim and a total_dim -> dim projection; none in sum
        mode. */
    var fusionLayers: Option<(int, int)>
    /** What `self.fc(self.norm(x))` computes on one token; read in concat
        mode only. */
    var project: Projection

    function Params(): PathParams
      reads this
    {
      PathParams(dim, direction, median, pixshufFactor)
    }

    function Model(): BlockModel
      reads this
    {
      BlockModel(dim, numPath, median, totalDim, pixshufFactor, direction, concat, paths, project)
    }

    /** The state __init__ leaves a block in. */
    ghost predicate Valid()
      reads this
    {
      && WellBuilt(Model())
      && fusionLayers == (if concat then Some((totalDim, dim)) else None)
      && (concat ==> totalDim >= 0)
    }

    /** Lines 119-125: the fields copied from the config and the constants
        derived from them; make_path has not run yet.  `proj` stands for
        the weights the fusion layers will hold. */
    constructor (config: Config, proj: Projection)
      ensures dim == config.hiddenSize && numPath == config.numPath
      ensures median == Median(config.numPath) && totalDim == config.hiddenSize * config.numPath
      ensures pixshufFactor == config.pixshufFactor && direction == config.direction
      ensures concat == config.concat && paths == [] && fusionLayers == None && project == proj
    {
      dim := config.hiddenSize;
      numPath := config.numPath;
      median := Median(config.numPath);
      totalDim := config.hiddenSize * config.numPath;
      pixshufFactor := config.pixshufFactor;
      direction := config.direction;
      concat := config.concat;
      paths := [];
      fusionLayers := None;
      project := proj;
    }

    /** make_path (lines 133-154): for each path, write its width into the
        shared config, build the path from it, and once every path is built
        write `dim` back.  An exception leaves the config as it was at that
        point. */
    method MakePath(config: Config, factory: BlockFactory) returns (err: Option<BuildError>)
      requires paths == []
      modifies this`paths, config`hiddenSize
      ensures var s := BuildUpTo(Params(), old(config.Snapshot()), factory, PathCount(numPath));
        && (s.Building? ==> err.None? && paths == s.paths && config.hiddenSize == dim)
        && (s.Failed? ==> err == Some(s.error) && config.hiddenSize == s.hiddenSize)
    {
      ghost var cfg := config.Snapshot();
      ghost var p := Params();
      var i := 1;
      while i <= numPath
        invariant 1 <= i && i - 1 <= PathCount(numPath)
        invariant p == Params()
        invariant config.Snapshot() == cfg.(hiddenSize := config.hiddenSize)
        invariant BuildUpTo(p, cfg, factory, i - 1) == Building(paths, config.hiddenSize)
      {
        var next := i + 1;
        BuildAdvance(p, cfg, factory, i, next);
        var width := PathWidth(dim, direction, median, pixshufFactor, i);
        if width.Err? {
          BuildFailureSticks(p, cfg, factory, i, PathCount(numPath));
          return Some(width.error);
        }
        config.hiddenSize := width.value;
        var block := factory(config.Snapshot());
        if block.None? {
          BuildFailureSticks(p, cfg, factory, i, PathCount(numPath));
          return Some(BlockRejected(i));
        }
        paths := paths + [PathBlock(width.value, block.value)];
        i := next;
      }
      config.hiddenSize := dim;
      return None;
    }

    /** _forward_each_paths (lines 156-191) on one (d, h, w) map: each path
        resamples, flattens to tokens, runs its block, restores the map and
        resamples back, and the next path starts from that result. */
    method ForwardEachPaths(x: seq<int>, d: nat, h: nat, w: nat)
      returns (r: Result<(seq<seq<int>>, seq<int>), ForwardError>)
      requires |paths| == PathCount(numPath) && |x| == d * h * w
      ensures r == EachPaths(x, d, h, w, paths, Plans(Model()))
    {
      ghost var plans := Plans(Model());
      var features: seq<seq<int>> := [];
      var attn: Option<seq<int>> := None;
      var cur := x;
      ghost var outs: seq<BlockOutput> := [];
      ChainStart(x, d, h, w, paths, plans);
      var i := 1;
      while i <= numPath
        invariant 1 <= i <= |paths| + 1 && |outs| == i - 1
        invariant plans == Plans(Model())
        invariant |cur| == d * h * w
        invariant RunPaths(x, d, h, w, paths, plans, 1) ==
          Prepend(outs, RunPaths(cur, d, h, w, paths[i - 1..], plans[i - 1..], i))
        invariant |features| == |outs| && forall j :: 0 <= j < |outs| ==> features[j] == outs[j].tokens
        invariant attn == if |outs| == 0 then None else Some(outs[|outs| - 1].attn)
      {
        var next := i + 1;
        ChainAdvance(x, d, h, w, paths, plans, i, next, cur, outs);
        var step := RunPath(i, cur, d, h, w);
        if step.Err? {
          return Err(step.error);
        }
        outs := outs + [step.value];
        cur := step.value.tokens;
        features := features + [cur];
        attn := Some(step.value.attn);
        i := next;
      }
      ChainDone(x, d, h, w, paths, plans, cur, outs, features, attn);
      if attn.None? {
        r := Err(NoPaths);
      } else {
        r := Ok((features, attn.value));
      }
    }

    /** One pass of the loop body, lines 160-187, for path i, statement by
        statement; it is the method ForwardEachPaths calls on each
        iteration, and PathStep is its specification. */
    method RunPath(i: int, x: seq<int>, d: nat, h: nat, w: nat) returns (r: Result<BlockOutput, ForwardError>)
      requires 1 <= i <= |paths| && |x| == d * h * w
      ensures r == PathStep(x, d, h, w, Plans(Model())[i - 1], paths[i - 1], i)
    {
      var s := PathResample(direction, median, pixshufFactor, i);
      var shape := ResampleInShape(s, d, h, w);
      if shape.Err? {
        return Err(ResampleFailed(i, shape.error));
      }
      var sh := shape.value;
      var tokens := Transpose(ResampleIn(s, x, d, h, w, sh), sh.c, sh.h * sh.w);
      var block := paths[i - 1];
      if sh.c != block.width {
        return Err(WidthMismatch(i, block.width, sh.c));
      }
      var out := block.run(tokens);
      if |out.tokens| != |tokens| {
        return Err(BlockChangedSize(i));
      }
      var restored := Transpose(out.tokens, sh.h * sh.w, sh.c);
      return Ok(BlockOutput(ResampleOut(s, restored, d, h, w, sh), out.attn));
    }

    /** forward (lines 193-208) on one sample of n tokens of d channels. */
    method Forward(tokens: seq<int>, n: nat, d: nat) returns (r: Result<ForwardOutput, ForwardError>)
      requires Valid() && |tokens| == n * d
      ensures r == ForwardSpec.Forward(Model(), tokens, n, d)
    {
      var h := ISqrt(n);
      if d * h * h != n * d {
        return Err(NotSquare(n));
      }
      var x := Transpose(tokens, n, d);
      var each := ForwardEachPaths(x, d, h, h);
      if each.Err? {
        return Err(each.error);
      }
      var (features, attn) := each.value;
      if concat {
        var cat := Concat(features);
        if totalDim < 0 || |cat| != totalDim * n {
          return Err(FusionViewFailed);
        }
        var rows := Transpose(cat, totalDim, n);
        return Ok(ForwardOutput(n, dim, Project(rows, n, totalDim, dim, project), attn));
      } else {
        var sum := SumFeatures(features, d * h * h);
        if |sum| != dim * n {
          return Err(FusionViewFailed);
        }
        return Ok(ForwardOutput(n, dim, Transpose(sum, dim, n), attn));
      }
    }
  }

  /** The chain's outputs so far in front of the rest of the chain. */
  function Prepend(outs: seq<BlockOutput>, r: Result<seq<BlockOutput>, ForwardError>): Result<seq<BlockOutput>, ForwardError> {
    if r.Err? then r else Ok(outs + r.value)
  }

  /** One more path of the chain: its step either raises, and the whole
      loop raises with it, or its output joins the outputs so far and the
      next path starts from it. */
  lemma ChainAdvance(x: seq<int>, d: nat, h: nat, w: nat, paths: seq<PathBlock>, plans: seq<Resample>, i: int, next: int,
                      cur: seq<int>, outs: seq<BlockOutput>)
    requires |x| == d * h * w && |cur| == d * h * w && |paths| == |plans| && 1 <= i <= |paths| && next == i + 1
    requires RunPaths(x, d, h, w, paths, plans, 1) == Prepend(outs, RunPaths(cur, d, h, w, paths[i - 1..], plans[i - 1..], i))
    ensures var step := PathStep(cur, d, h, w, plans[i - 1], paths[i - 1], i);
      && (step.Err? ==> RunPaths(x, d, h, w, paths, plans, 1) == Err(step.error))
      && (step.Ok? ==>
            RunPaths(x, d, h, w, paths, plans, 1) ==
            Prepend(outs + [step.value], RunPaths(step.value.tokens, d, h, w, paths[next - 1..], plans[next - 1..], next)))
  {
    var ps, qs := paths[i - 1..], plans[i - 1..];
    RunPathsCons(cur, d, h, w, ps, qs, i);
    SliceHead(paths, i, next);
    SliceHead(plans, i, next);
    var step := PathStep(cur, d, h, w, qs[0], ps[0], i);
    if step.Ok? {
      var rest := RunPaths(step.value.tokens, d, h, w, ps[1..], qs[1..], i + 1);
      if rest.Ok? {
        AppendRegroup(outs, step.value, rest.value);
      }
    }
  }

  /** The suffix from path i starts with path i and continues with the
      suffix from path next == i + 1 (the loop's next index, passed as a
      variable so that the invariant mentions no `i + 1 - 1`). */
  lemma SliceHead<T>(s: seq<T>, i: int, next: int)
    requires 1 <= i <= |s| && next == i + 1
    ensures s[i - 1..][0] == s[i - 1] && s[i - 1..][1..] == s[next - 1..]
  {
  }

  /** Appending one output and then the rest is appending both at once. */
  lemma AppendRegroup<T>(outs: seq<T>, o: T, rest: seq<T>)
    ensures outs + ([o] + rest) == (outs + [o]) + rest
  {
  }

  /** Before any path has run, the whole chain is still ahead. */
  lemma ChainStart(x: seq<int>, d: nat, h: nat, w: nat, paths: seq<PathBlock>, plans: seq<Resample>)
    requires |x| == d * h * w && |paths| == |plans|
    ensures RunPaths(x, d, h, w, paths, plans, 1) == Prepend([], RunPaths(x, d, h, w, paths[0..], plans[0..], 1))
  {
    assert paths[0..] == paths && plans[0..] == plans;
    var whole := RunPaths(x, d, h, w, paths, plans, 1);
    assert whole.Ok? ==> [] + whole.value == whole.value;
  }

  /** Once every path has run, the outputs gathered are the chain's. */
  lemma ChainEnd(x: seq<int>, d: nat, h: nat, w: nat, paths: seq<PathBlock>, plans: seq<Resample>, cur: seq<int>, outs: seq<BlockOutput>)
    requires |x| == d * h * w && |cur| == d * h * w && |paths| == |plans|
    requires RunPaths(x, d, h, w, paths, plans, 1) == Prepend(outs, RunPaths(cur, d, h, w, paths[|paths|..], plans[|paths|..], |paths| + 1))
    ensures RunPaths(x, d, h, w, paths, plans, 1) == Ok(outs)
  {
    assert outs + [] == outs;
  }

  /** What _forward_each_paths returns once the chain's outputs are known. */
  lemma EachPathsOfOutputs(x: seq<int>, d: nat, h: nat, w: nat, paths: seq<PathBlock>, plans: seq<Resample>, outs: seq<BlockOutput>, features: seq<seq<int>>)
    requires |x| == d * h * w && |paths| == |plans|
    requires RunPaths(x, d, h, w, paths, plans, 1) == Ok(outs)
    requires |features| == |outs| && forall j :: 0 <= j < |outs| ==> features[j] == outs[j].tokens
    ensures EachPaths(x, d, h, w, paths, plans) ==
      if |outs| == 0 then Err(NoPaths) else Ok((features, outs[|outs| - 1].attn))
  {
    assert features == seq(|outs|, j requires 0 <= j < |outs| => outs[j].tokens);
  }

  /** What the loop leaves behind once every path has run is what
      _forward_each_paths returns. */
  lemma ChainDone(x: seq<int>, d: nat, h: nat, w: nat, paths: seq<PathBlock>, plans: seq<Resample>,
                  cur: seq<int>, outs: seq<BlockOutput>, features: seq<seq<int>>, attn: Option<seq<int>>)
    requires |x| == d * h * w && |cur| == d * h * w && |paths| == |plans|
    requires RunPaths(x, d, h, w, paths, plans, 1) == Prepend(outs, RunPaths(cur, d, h, w, paths[|paths|..], plans[|paths|..], |paths| + 1))
    requires |features| == |outs| && forall j :: 0 <= j < |outs| ==> features[j] == outs[j].tokens
    requires attn == if |outs| == 0 then None else Some(outs[|outs| - 1].attn)
    ensures EachPaths(x, d, h, w, paths, plans) == if attn.None? then Err(NoPaths) else Ok((features, attn.value))
  {
    ChainEnd(x, d, h, w, paths, plans, cur, outs);
    EachPathsOfOutputs(x, d, h, w, paths, plans, outs, features);
  }

  /** Lines 203-205: `x = features[0]`, then `x = x + f` for every other
      feature. */
  method SumFeatures(features: seq<seq<int>>, len: nat) returns (s: seq<int>)
    requires |features| >= 1
    requires forall j :: 0 <= j < |features| ==> |features[j]| == len
    ensures s == SumOfFeatures(features, len)
  {
    s := features[0];
    assert features[..1][..0] == [];
    var j := 1;
    while j < |features|
      invariant 1 <= j <= |features| && |s| == len
      invariant forall k :: 0 <= k < len ==> s[k] == ColumnSum(features[..j], k)
    {
      assert features[..j + 1][..j] == features[..j];
      s := seq(len, k requires 0 <= k < len => s[k] + features[j][k]);
      j := j + 1;
    }
    assert features[..j] == features;
  }

  /** MultiWayBlock(config, block) (lines 111-130): check the config, copy
      its fields, build the paths, and in concat mode add the fusion
      layers, which torch refuses over a negative total_dim (a negative
      num_path).  On success the config is as it was; when a path fails to
      build, `hidden_size` is left at the last width written.  `proj` is
      what the fusion layers compute, their weights being initialised
      outside this model. */
  method NewMultiWayBlock(config: Config, factory: BlockFactory, proj: Projection) returns (r: Result<MultiWayBlock, BuildError>)
    modifies config
    ensures config.numPath == old(config.numPath) && config.direction == old(config.direction)
    ensures config.pixshufFactor == old(config.pixshufFactor) && config.concat == old(config.concat)
    ensures var cfg := old(config.Snapshot());
      var p := PathParams(cfg.hiddenSize, cfg.direction, Median(cfg.numPath), cfg.pixshufFactor);
      var s := BuildUpTo(p, cfg, factory, PathCount(cfg.numPath));
      && (CheckConfig(cfg.direction, cfg.numPath).Some? ==>
            r == Err(CheckConfig(cfg.direction, cfg.numPath).value) && config.hiddenSize == cfg.hiddenSize)
      && (CheckConfig(cfg.direction, cfg.numPath).None? && s.Failed? ==>
            r == Err(s.error) && config.hiddenSize == s.hiddenSize)
      && (CheckConfig(cfg.direction, cfg.numPath).None? && s.Building? && cfg.concat && cfg.hiddenSize * cfg.numPath < 0 ==>
            r == Err(FusionLayerRejected(cfg.hiddenSize * cfg.numPath)) && config.Snapshot() == cfg)
      && (CheckConfig(cfg.direction, cfg.numPath).None? && s.Building? && !(cfg.concat && cfg.hiddenSize * cfg.numPath < 0) ==>
            r.Ok? && fresh(r.value) && r.value.Valid() && config.Snapshot() == cfg &&
            r.value.Model() == BlockModel(cfg.hiddenSize, cfg.numPath, Median(cfg.numPath),
              cfg.hiddenSize * cfg.numPath, cfg.pixshufFactor, cfg.direction, cfg.concat, s.paths, proj))
  {
    ghost var cfg := config.Snapshot();
    var check := CheckConfig(config.direction, config.numPath);
    if check.Some? {
      return Err(check.value);
    }
    var b := new MultiWayBlock(config, proj);
    ghost var p := PathParams(cfg.hiddenSize, cfg.direction, Median(cfg.numPath), cfg.pixshufFactor);
    assert b.Params() == p && b.totalDim == cfg.hiddenSize * cfg.numPath;
    var err := b.MakePath(config, factory);
    ghost var s := BuildUpTo(p, cfg, factory, PathCount(cfg.numPath));
    if err.Some? {
      return Err(err.value);
    }
    assert s.Building? && b.paths == s.paths && config.Snapshot() == cfg;
    BuiltPaths(p, cfg, factory, PathCount(b.numPath));
    ghost var m := b.Model();
    assert WellBuilt(m);
    if b.concat {
      if b.totalDim < 0 {
        return Err(FusionLayerRejected(b.totalDim));
      }
      b.fusionLayers := Some((b.totalDim, b.dim));
    }
    assert b.Model() == m;
    return Ok(b);
  }
}
