/**
 The two-tier signal cache (research/mds/sigcache.py): an in-process LRU in front of a content-addressed store
 on disk. Signal evaluation, the content hash and the size of a panel are parameters; the hash is taken to be
 injective on the inputs it addresses.
 */
module SignalCache {
  import opened Reals
  import opened Lru

  /** What a signal's value depends on: its code and the contents of the columns it reads. */
  datatype Input<C(==)> = Input(fingerprint: string, data: map<string, C>)

  datatype Signal = Signal(fingerprint: string, columns: set<string>)

  /** What evaluating a signal gives: a panel, a scalar, or an exception. */
  datatype Outcome<C> = Frame(content: C) | Scalar(value: real) | Raised

  /** A data frame: an object its holder may change. */
  class Panel<C> {
    var content: C

    constructor (content: C)
      ensures this.content == content
    {
      this.content := content;
    }
  }

  datatype File<C> = Good(content: C) | Corrupt

  class Disk<C> {
    var files: map<string, File<C>>

    constructor ()
      ensures files == map[]
    {
      files := map[];
    }
  }

  /** What `evaluate` hands back. */
  datatype Answer<C> = MissingColumn | Result(panel: Panel<C>) | Value(value: real) | Failed

  datatype Stats = Stats(hits: nat, misses: nat, memoryHits: nat, diskHits: nat, writes: nat)

  /** The recency list, the size table and the byte count of the memory tier agree. */
  ghost predicate Tables(order: seq<string>, sizes: map<string, nat>, bytes: int, weight: string -> nat) {
    && Distinct(order) && (forall k :: k in order <==> k in sizes)
    && (forall k :: k in sizes ==> sizes[k] == weight(k))
    && bytes == Load(order, weight)
  }

  lemma TablesInsert(order: seq<string>, sizes: map<string, nat>, bytes: int, weight: string -> nat, k: string)
    requires Tables(order, sizes, bytes, weight) && k !in sizes
    ensures Tables(order + [k], sizes[k := weight(k)], bytes + weight(k), weight)
  {
    LoadAppend(order, [k], weight);
    assert Load([k], weight) == weight(k) + Load([], weight);
    assert k !in order;
  }

  lemma TablesPop(order: seq<string>, sizes: map<string, nat>, bytes: int, weight: string -> nat)
    requires Tables(order, sizes, bytes, weight) && order != []
    ensures order[0] in sizes && Tables(order[1..], sizes - {order[0]}, bytes - sizes[order[0]], weight)
  {
    var oldest, rest := order[0], order[1..];
    assert oldest in order;
    assert order == [oldest] + rest;
    forall k ensures k in rest <==> k in sizes && k != oldest {
      assert k in order <==> k == oldest || k in rest;
      if k in rest {
        var j :| 0 <= j < |rest| && rest[j] == k;
        assert order[j + 1] == k;
      }
    }
  }

  lemma TablesUse(order: seq<string>, sizes: map<string, nat>, bytes: int, weight: string -> nat, k: string)
    requires Tables(order, sizes, bytes, weight) && k in sizes
    ensures Tables(Used(order, k), sizes, bytes, weight)
  {
    UsedCosts(order, k, weight);
    WithoutDistinct(order, k);
    WithoutMembers(order, k);
  }

  lemma UseKeeps(order: seq<string>, used: seq<string>, sizes: map<string, nat>, bytes: int, weight: string -> nat,
                 b: Budget, k: string)
    requires Tables(order, sizes, bytes, weight) && k in sizes && Distinct(used) && LongestFit(order, used, weight, b)
    ensures Tables(Used(order, k), sizes, bytes, weight)
    ensures Distinct(Used(used, k)) && LongestFit(Used(order, k), Used(used, k), weight, b)
  {
    hide LongestFit, Used;
    HitKeepsLongestFit(order, used, k, weight, b);
    TablesUse(order, sizes, bytes, weight, k);
    WithoutDistinct(used, k);
  }

  lemma NotResident(order: seq<string>, sizes: map<string, nat>, bytes: int, weight: string -> nat, k: string)
    requires Tables(order, sizes, bytes, weight) && k !in sizes
    ensures k !in order
  {}

  class SignalCache<C(==,!new)> {
    const hash: Input<C> -> string
    const eval: Input<C> -> Outcome<C>
    const size: C -> nat
    const budget: Budget
    const disk: Disk<C>
    var mem: map<string, Panel<C>>
    var order: seq<string>          // resident keys, least recently used first
    var sizes: map<string, nat>
    var bytes: int
    var stats: Stats
    ghost var used: seq<string>     // every key remembered since the last clear, in order of last use

    ghost predicate CollisionFree() {
      forall i, j :: hash(i) == hash(j) ==> i == j
    }

    /** The size of the panel stored under a key. */
    ghost function Weight(k: string): nat {
      if exists i :: hash(i) == k && eval(i).Frame? then
        var i :| hash(i) == k && eval(i).Frame?;
        size(eval(i).content)
      else 0
    }

    /** The content is what evaluating any input with this key gives. */
    ghost predicate IsTruth(k: string, content: C) {
      && (exists i :: hash(i) == k)
      && forall i :: hash(i) == k ==> eval(i) == Frame(content)
    }

    ghost predicate DiskSound()
      reads disk
    {
      forall k :: k in disk.files && disk.files[k].Good? ==> IsTruth(k, disk.files[k].content)
    }

    /** Every resident panel is true. */
    ghost predicate PanelsSound()
      reads this`mem, mem.Values
    {
      forall k :: k in mem ==> IsTruth(k, mem[k].content)
    }

    /** The memory tier's tables agree with each other. */
    ghost predicate TablesSound()
      reads this`mem, this`sizes, this`bytes, this`order
    {
      mem.Keys == sizes.Keys && Tables(order, sizes, bytes, Weight)
    }

    /** What is resident is the longest recent stretch that fits the budgets. */
    ghost predicate Recent()
      reads this`order, this`used
    {
      Distinct(used) && LongestFit(order, used, Weight, budget)
    }

    ghost predicate Counted()
      reads this`stats
    {
      stats.hits == stats.memoryHits + stats.diskHits
    }

    ghost predicate Valid()
      reads this, disk, mem.Values
    {
      CollisionFree() && DiskSound() && PanelsSound() && TablesSound() && Recent() && Counted()
    }

    constructor (hash: Input<C> -> string, eval: Input<C> -> Outcome<C>, size: C -> nat, budget: Budget, disk: Disk<C>)
      requires forall i, j :: hash(i) == hash(j) ==> i == j
      requires forall k :: k in disk.files && disk.files[k].Good? ==>
        (exists i :: hash(i) == k) && forall i :: hash(i) == k ==> eval(i) == Frame(disk.files[k].content)
      ensures Valid() && this.disk == disk && mem == map[]
      ensures this.hash == hash && this.eval == eval && this.size == size && this.budget == budget
    {
      this.hash, this.eval, this.size, this.budget, this.disk := hash, eval, size, budget, disk;
      mem, order, sizes, bytes, stats, used := map[], [], map[], 0, Stats(0, 0, 0, 0, 0), [];
      new;
      assert Cut(order, used, 0, Weight, budget);
    }

    /** The input a signal evaluates on, or None if it reads a column the environment lacks. */
    function InputOf(sig: Signal, env: map<string, C>): Option<Input<C>> {
      if forall c :: c in sig.columns ==> c in env
      then Some(Input(sig.fingerprint, map c | c in sig.columns :: env[c]))
      else None
    }

    /** The answer is the one evaluating the signal directly would give. */
    ghost predicate AsDirect(answer: Answer<C>, sig: Signal, env: map<string, C>)
      reads if answer.Result? then {answer.panel} else {}
    {
      match InputOf(sig, env)
      case None => answer == MissingColumn
      case Some(i) => AsEvaluated(answer, i)
    }

    ghost predicate AsEvaluated(answer: Answer<C>, i: Input<C>)
      reads if answer.Result? then {answer.panel} else {}
    {
      match eval(i)
      case Frame(content) => answer.Result? && answer.panel.content == content
      case Scalar(v) => answer == Value(v)
      case Raised => answer == Failed
    }

    /** Invalidation is precise: two environments address the same slot exactly when they agree on every
        column the signal reads; all other columns are irrelevant. */
    lemma KeyIsPrecise(sig: Signal, env: map<string, C>, env': map<string, C>)
      requires CollisionFree() && sig.columns <= env.Keys && sig.columns <= env'.Keys
      ensures hash(InputOf(sig, env).value) == hash(InputOf(sig, env').value)
         <==> forall c :: c in sig.columns ==> env[c] == env'[c]
    {
      var i, j := InputOf(sig, env).value, InputOf(sig, env').value;
      if i == j {
        forall c | c in sig.columns ensures env[c] == env'[c] {
          assert i.data[c] == j.data[c];
        }
      }
    }

    lemma SizeIsWeight(k: string, content: C)
      requires CollisionFree() && IsTruth(k, content)
      ensures Weight(k) == size(content)
    {
      var i :| hash(i) == k;
      assert eval(i) == Frame(content);
    }

    lemma TruthOf(i: Input<C>)
      requires CollisionFree() && eval(i).Frame?
      ensures IsTruth(hash(i), eval(i).content) && Weight(hash(i)) == size(eval(i).content)
    {}

    method Insert(k: string, panel: Panel<C>)
      requires PanelsSound() && TablesSound() && CollisionFree() && k !in mem && IsTruth(k, panel.content)
      modifies this`mem, this`sizes, this`bytes, this`order
      ensures PanelsSound() && TablesSound() && mem == old(mem)[k := panel] && order == old(order) + [k]
    {
      hide Weight, IsTruth, CollisionFree, Tables;
      SizeIsWeight(k, panel.content);
      TablesInsert(order, sizes, bytes, Weight, k);
      var panelSize := size(panel.content);
      mem := mem[k := panel];
      sizes := sizes[k := panelSize];
      bytes := bytes + panelSize;
      order := order + [k];
    }

    method PopOldest()
      requires PanelsSound() && TablesSound() && order != []
      modifies this`mem, this`sizes, this`bytes, this`order
      ensures PanelsSound() && TablesSound() && mem == old(mem) - {old(order)[0]} && order == old(order)[1..]
    {
      hide Weight, IsTruth, Tables;
      TablesPop(order, sizes, bytes, Weight);
      var oldest := order[0];
      bytes := bytes - sizes[oldest];
      mem := mem - {oldest};
      sizes := sizes - {oldest};
      order := order[1..];
    }

    /** Inserts a panel as the most recently used and evicts from the other end until both budgets hold. */
    method Remember(k: string, panel: Panel<C>)
      requires Valid() && k !in mem && IsTruth(k, panel.content)
      modifies this`mem, this`sizes, this`bytes, this`order, this`used
      ensures Valid() && mem.Values <= old(mem.Values) + {panel}
      ensures order == Evict(old(order) + [k], Weight, budget) && used == Used(old(used), k)
    {
      hide LongestFit, IsTruth, DiskSound, CollisionFree, Used, Weight, Distinct, Tables, PanelsSound;
      NotResident(order, sizes, bytes, Weight, k);
      MissKeepsLongestFit(order, used, k, Weight, budget);
      WithoutDistinct(used, k);
      ghost var target := Evict(order + [k], Weight, budget);
      Insert(k, panel);
      used := Used(used, k);
      while order != [] && (|order| > budget.items || bytes > budget.bytes)
        invariant PanelsSound() && TablesSound() && mem.Values <= old(mem.Values) + {panel}
        invariant Evict(order, Weight, budget) == target && used == Used(old(used), k)
        decreases |order|
      {
        TablesLoad();
        PopOldest();
      }
      TablesLoad();
    }

    lemma TablesLoad()
      requires TablesSound()
      ensures bytes == Load(order, Weight)
    {}

    method Touch(k: string)
      requires TablesSound() && Recent() && k in mem
      modifies this`order, this`used
      ensures TablesSound() && Recent() && order == Used(old(order), k) && used == Used(old(used), k)
    {
      hide LongestFit, Used, Weight, Distinct, Tables;
      UseKeeps(order, used, sizes, bytes, Weight, budget, k);
      order := Used(order, k);
      used := Used(used, k);
    }

    /** The signal's panel, from either tier when it is there and computed when it is not. */
    method Evaluate(sig: Signal, env: map<string, C>) returns (answer: Answer<C>)
      requires Valid()
      modifies this, disk
      ensures Valid() && AsDirect(answer, sig, env)
      ensures answer.Result? ==> fresh(answer.panel) && answer.panel !in mem.Values
      ensures forall p :: p in mem.Values ==> p in old(mem.Values) || fresh(p)
      ensures InputOf(sig, env).None? ==> stats == old(stats) && used == old(used)
      ensures InputOf(sig, env).Some? ==> var k := hash(InputOf(sig, env).value);
        && stats.hits == old(stats.hits) + (if old(Holds(k)) then 1 else 0)
        && stats.misses == old(stats.misses) + (if old(Holds(k)) then 0 else 1)
        && stats.memoryHits == old(stats.memoryHits) + (if k in old(mem) then 1 else 0)
        && stats.writes == old(stats.writes) + (if answer.Result? && !old(Holds(k)) then 1 else 0)
        && used == if answer.Result? then Used(old(used), k) else old(used)
      ensures disk.files == match InputOf(sig, env)
        case None => old(disk.files)
        case Some(i) => FilesAfter(old(disk.files), hash(i), i, hash(i) in old(mem))
    {
      hide Valid, AsEvaluated, Used, InputOf, Holds, FilesAfter;
      var input := InputOf(sig, env);
      if input.None? {
        answer := MissingColumn;
      } else {
        answer := Lookup(hash(input.value), input.value);
      }
    }

    /** The two tiers in turn, then the computation; a corrupt file is discarded on the way. */
    method Lookup(k: string, i: Input<C>) returns (answer: Answer<C>)
      requires Valid() && hash(i) == k
      modifies this, disk
      ensures Valid() && AsEvaluated(answer, i)
      ensures answer.Result? ==> fresh(answer.panel) && answer.panel !in mem.Values
      ensures forall p :: p in mem.Values ==> p in old(mem.Values) || fresh(p)
      ensures stats.hits == old(stats.hits) + (if old(Holds(k)) then 1 else 0)
      ensures stats.misses == old(stats.misses) + (if old(Holds(k)) then 0 else 1)
      ensures stats.memoryHits == old(stats.memoryHits) + (if k in old(mem) then 1 else 0)
      ensures stats.writes == old(stats.writes) + (if answer.Result? && !old(Holds(k)) then 1 else 0)
      ensures used == if answer.Result? then Used(old(used), k) else old(used)
      ensures disk.files == FilesAfter(old(disk.files), k, i, k in old(mem))
    {
      hide Valid, AsEvaluated, Used;
      if k in mem {
        answer := FromMemory(k, i);
        return;
      }
      if k in disk.files && disk.files[k].Good? {
        answer := FromDisk(k, disk.files[k].content, i);
        return;
      }
      if k in disk.files {
        Unlink(k);
      }
      answer := Compute(k, i);
    }

    method FromMemory(k: string, ghost i: Input<C>) returns (answer: Answer<C>)
      requires Valid() && k in mem && hash(i) == k
      modifies this`order, this`used, this`stats
      ensures Valid() && AsEvaluated(answer, i)
      ensures answer.Result? && fresh(answer.panel) && answer.panel !in mem.Values
      ensures forall p :: p in mem.Values ==> p in old(mem.Values) || fresh(p)
      ensures stats.hits == old(stats.hits) + 1 && stats.misses == old(stats.misses) && used == Used(old(used), k)
      ensures stats.memoryHits == old(stats.memoryHits) + 1 && stats.writes == old(stats.writes)
    {
      hide LongestFit, IsTruth, CollisionFree, Weight, Distinct, Tables, Used;
      TruthIsDirect(k, mem[k].content, i);
      var copy := new Panel(mem[k].content);
      answer := Result(copy);
      Touch(k);
      CountHit(true);
    }

    method FromDisk(k: string, content: C, ghost i: Input<C>) returns (answer: Answer<C>)
      requires Valid() && k !in mem && k in disk.files && disk.files[k] == Good(content) && hash(i) == k
      modifies this
      ensures Valid() && AsEvaluated(answer, i)
      ensures answer.Result? && fresh(answer.panel) && answer.panel !in mem.Values
      ensures forall p :: p in mem.Values ==> p in old(mem.Values) || fresh(p)
      ensures stats.hits == old(stats.hits) + 1 && stats.misses == old(stats.misses) && used == Used(old(used), k)
      ensures stats.memoryHits == old(stats.memoryHits) && stats.writes == old(stats.writes)
      ensures eval(i) == Frame(content) && disk.files == old(disk.files)
    {
      hide LongestFit, IsTruth, CollisionFree, Weight, Distinct, Tables, Used;
      TruthIsDirect(k, content, i);
      var loaded := new Panel(content);
      Remember(k, loaded);
      CountHit(false);
      var copy := new Panel(content);
      answer := Result(copy);
    }

    method Unlink(k: string)
      requires Valid()
      modifies disk
      ensures Valid() && disk.files == old(disk.files) - {k}
    {
      hide IsTruth;
      disk.files := disk.files - {k};
    }

    method Compute(k: string, i: Input<C>) returns (answer: Answer<C>)
      requires Valid() && k !in mem && k !in disk.files && hash(i) == k
      modifies this, disk
      ensures Valid() && AsEvaluated(answer, i)
      ensures answer.Result? ==> fresh(answer.panel) && answer.panel !in mem.Values
      ensures forall p :: p in mem.Values ==> p in old(mem.Values) || fresh(p)
      ensures stats.hits == old(stats.hits) && stats.misses == old(stats.misses) + 1
      ensures stats.memoryHits == old(stats.memoryHits)
      ensures stats.writes == old(stats.writes) + (if answer.Result? then 1 else 0)
      ensures used == if answer.Result? then Used(old(used), k) else old(used)
      ensures disk.files == FilesAfter(old(disk.files), k, i, false)
    {
      hide LongestFit, IsTruth, Weight, Distinct, Tables, Used;
      stats := stats.(misses := stats.misses + 1);
      match eval(i)
      case Raised => answer := Failed;
      case Scalar(v) => answer := Value(v);
      case Frame(content) =>
        TruthOf(i);
        disk.files := disk.files[k := Good(content)];
        var computed := new Panel(content);
        Remember(k, computed);
        stats := stats.(writes := stats.writes + 1);
        var copy := new Panel(content);
        answer := Result(copy);
    }

    /** The store after an evaluation: untouched by an answer from memory; otherwise the panel of this key is there, and
        if there is no panel to store then nothing, readable or not, is left under the key. */
    ghost function FilesAfter(before: map<string, File<C>>, k: string, i: Input<C>, resident: bool): map<string, File<C>> {
      if resident then before
      else if eval(i).Frame? then before[k := Good(eval(i).content)]
      else before - {k}
    }

    /** Some tier has a readable panel under this key. */
    predicate Holds(k: string)
      reads this`mem, disk
    {
      k in mem || (k in disk.files && disk.files[k].Good?)
    }

    lemma TruthIsDirect(k: string, content: C, i: Input<C>)
      requires IsTruth(k, content) && hash(i) == k
      ensures eval(i) == Frame(content)
    {}

    method CountHit(memory: bool)
      requires Counted()
      modifies this`stats
      ensures Counted()
      ensures stats == old(stats).(hits := old(stats).hits + 1, memoryHits := old(stats).memoryHits + (if memory then 1 else 0),
                                   diskHits := old(stats).diskHits + (if memory then 0 else 1))
    {
      if memory {
        stats := stats.(memoryHits := stats.memoryHits + 1);
      } else {
        stats := stats.(diskHits := stats.diskHits + 1);
      }
      stats := stats.(hits := stats.hits + 1);
    }

    /** Forgets the memory tier and, if asked, the store. */
    method Clear(alsoDisk: bool)
      requires Valid()
      modifies this, disk
      ensures Valid() && mem == map[] && order == [] && used == []
      ensures disk.files == if alsoDisk then map[] else old(disk.files)
    {
      mem, order, sizes, bytes, used := map[], [], map[], 0, [];
      assert Cut(order, used, 0, Weight, budget);
      if alsoDisk {
        disk.files := map[];
      }
    }
  }

  /**
   A caller who scribbles on the panel it was given cannot poison the cache: the next evaluation of the same
   signal on the same data still gives what evaluating it directly gives.
   */
  method ScribbleAndRepeat<C(==,!new)>(cache: SignalCache<C>, sig: Signal, env: map<string, C>, junk: C)
    returns (first: Answer<C>, second: Answer<C>)
    requires cache.Valid()
    modifies cache, cache.disk
    ensures cache.Valid() && cache.AsDirect(second, sig, env)
    ensures first.Result? && second.Result? ==> first.panel != second.panel && first.panel.content == junk
  {
    first := cache.Evaluate(sig, env);
    if first.Result? {
      first.panel.content := junk;
    }
    second := cache.Evaluate(sig, env);
  }
}
