/** The per-exercise `Exercise_details` records and the minute-keyed
    `Workouts` timeline of one week (src/report/generator.py, lines 225-282). */
module Details {
  import opened Seqs

  /** One entry of a detail's `sets` list (lines 267-273). */
  datatype SetRecord = SetRecord(weight: real, reps: int, isWarmup: bool, duration: real, isCardio: bool)

  datatype ExerciseDetail = ExerciseDetail(
    sets: seq<SetRecord>,
    totalVolume: real,
    maxWeight: real,
    totalReps: int,
    totalDuration: real,
    workingSets: nat,
    warmupSets: nat,
    isCardio: bool)

  /** Lines 255-264: a new detail, whose cardio flag is that of the first entry seen. */
  function NewDetail(isCardio: bool): (d: ExerciseDetail)
    ensures Consistent(d) && d.sets == [] && d.isCardio == isCardio
  {
    ExerciseDetail([], 0.0, 0.0, 0, 0.0, 0, 0, isCardio)
  }

  function Max(a: real, b: real): real {
    if a >= b then a else b
  }

  /** Lines 267-282: append the set and update the counters and the running maximum. */
  function AddSet(d: ExerciseDetail, s: SetRecord): ExerciseDetail {
    ExerciseDetail(
      d.sets + [s],
      d.totalVolume + s.weight * s.reps as real,
      Max(d.maxWeight, s.weight),
      d.totalReps + s.reps,
      d.totalDuration + s.duration,
      if s.isWarmup then d.workingSets else d.workingSets + 1,
      if s.isWarmup then d.warmupSets + 1 else d.warmupSets,
      d.isCardio)
  }

  function SetVolume(s: SetRecord): real { s.weight * s.reps as real }
  function SetReps(s: SetRecord): real { s.reps as real }
  function SetDuration(s: SetRecord): real { s.duration }
  predicate IsWarmupSet(s: SetRecord) { s.isWarmup }

  /** What a detail record promises about its sets: the counters split the
      sets into working and warm-up sets, the totals are sums over the sets,
      and the maximum is the largest set weight, or 0 when none is larger. */
  predicate Consistent(d: ExerciseDetail) {
    && d.workingSets + d.warmupSets == |d.sets|
    && d.warmupSets == |Filter(d.sets, IsWarmupSet)|
    && d.totalVolume == SumOf(d.sets, SetVolume)
    && d.totalReps as real == SumOf(d.sets, SetReps)
    && d.totalDuration == SumOf(d.sets, SetDuration)
    && d.maxWeight >= 0.0
    && (forall i :: 0 <= i < |d.sets| ==> d.sets[i].weight <= d.maxWeight)
    && (d.maxWeight == 0.0 || exists i :: 0 <= i < |d.sets| && d.sets[i].weight == d.maxWeight)
  }

  /** Adding a set keeps a detail record consistent. */
  lemma AddSetConsistent(d: ExerciseDetail, s: SetRecord)
    requires Consistent(d)
    ensures Consistent(AddSet(d, s))
    ensures AddSet(d, s).sets == d.sets + [s] && AddSet(d, s).isCardio == d.isCardio
  {
    var r := AddSet(d, s);
    assert r.sets[..|r.sets| - 1] == d.sets;
    if d.maxWeight != 0.0 && d.maxWeight >= s.weight {
      var i :| 0 <= i < |d.sets| && d.sets[i].weight == d.maxWeight;
      assert r.sets[i].weight == r.maxWeight;
    } else {
      assert r.sets[|d.sets|].weight == r.maxWeight || r.maxWeight == 0.0;
    }
  }

  /** One entry of the timeline (lines 234-243). */
  datatype WorkoutRecord = WorkoutRecord(
    exercise: string,
    weight: real,
    weightUnit: string,
    reps: int,
    isWarmup: bool,
    clock: int,
    duration: real,
    isCardio: bool)

  /** The `Workouts` dictionary, keyed by the local minute. */
  type Timeline = map<int, seq<WorkoutRecord>>

  /** Lines 227-228 and 245: append the record under its minute, creating the list first. */
  function AddRecord(m: Timeline, k: int, r: WorkoutRecord): Timeline {
    m[k := (if k in m then m[k] else []) + [r]]
  }

  /** Every record of a timeline, named by its minute and its position in that minute's list. */
  function Slots(m: Timeline): set<(int, int)> {
    set k, i | k in m && 0 <= i < |m[k]| :: (k, i)
  }

  /** The number of records across all lists of a timeline. */
  function RecordCount(m: Timeline): nat {
    |Slots(m)|
  }

  /** Each appended record adds one to the count. */
  lemma AddRecordCount(m: Timeline, k: int, r: WorkoutRecord)
    ensures RecordCount(AddRecord(m, k, r)) == RecordCount(m) + 1
  {
    var n := if k in m then |m[k]| else 0;
    AddRecordSlots(m, k, r);
    assert (k, n) !in Slots(m);
  }

  /** The new record takes the slot just past the end of its minute's list. */
  lemma AddRecordSlots(m: Timeline, k: int, r: WorkoutRecord)
    ensures Slots(AddRecord(m, k, r)) == Slots(m) + {(k, if k in m then |m[k]| else 0)}
  {
    var m' := AddRecord(m, k, r);
    var n := if k in m then |m[k]| else 0;
    forall p | p in Slots(m') ensures p in Slots(m) + {(k, n)} {
      SlotAfterAdd(m, k, r, p.0, p.1);
    }
    forall p | p in Slots(m) + {(k, n)} ensures p in Slots(m') {
      SlotBeforeAdd(m, k, r, p.0, p.1);
    }
  }

  lemma SlotAfterAdd(m: Timeline, k: int, r: WorkoutRecord, k': int, i: int)
    requires (k', i) in Slots(AddRecord(m, k, r))
    ensures (k', i) in Slots(m) || (k', i) == (k, if k in m then |m[k]| else 0)
  {
    if k' != k {
      assert AddRecord(m, k, r)[k'] == m[k'];
    }
  }

  lemma SlotBeforeAdd(m: Timeline, k: int, r: WorkoutRecord, k': int, i: int)
    requires (k', i) in Slots(m) || (k', i) == (k, if k in m then |m[k]| else 0)
    ensures (k', i) in Slots(AddRecord(m, k, r))
  {
    var m' := AddRecord(m, k, r);
    if k' != k {
      assert m'[k'] == m[k'];
    } else {
      assert |m'[k]| == (if k in m then |m[k]| else 0) + 1;
    }
  }

  lemma EmptyCount()
    ensures RecordCount(map[]) == 0
  {
    assert Slots(map[]) == {};
  }
}
