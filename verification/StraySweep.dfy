/** Saves, recordings and stray sweeps by any number of processes over one database
    (store.go, main.go). */
module StraySweep {
  import opened Bytes
  import opened Stamps
  import opened Sealing
  import opened OAuthTables
  import opened Disk
  import Targets

  // `recorded` is history: when each definition was last recorded, whatever has been purged.
  datatype State = State(creds: Creds, seen: map<Served, int>, clock: int, recorded: map<Served, int>)

  datatype Step =
    | Tick(now: int)
    | Save(key: CredKey, box: Sealed<Targets.Headers>)
    | Clear(key: CredKey)
    | Record(served: set<Served>)
    | PurgeSeen
    | SweepStrays

  predicate Enabled(s: State, step: Step) { step.Tick? ==> s.clock <= step.now }

  function Next(s: State, step: Step): State
    requires Enabled(s, step)
  {
    match step
    case Tick(now) => s.(clock := now)
    case Save(key, box) => s.(creds := s.creds[key := Cred(box, s.clock)])
    case Clear(key) => s.(creds := s.creds - {key})
    case Record(served) =>
      s.(seen := Recorded(s.seen, served, s.clock), recorded := Recorded(s.recorded, served, s.clock))
    case PurgeSeen => s.(seen := KeptSeen(s.seen, s.clock))
    case SweepStrays => s.(creds := WithoutStrays(s.creds, s.seen, s.clock))
  }

  // What is gone from stamp_seen was last recorded over thirty days ago.
  ghost predicate Inv(s: State) {
    && s.seen.Keys <= s.recorded.Keys
    && (forall p :: p in s.recorded ==> s.recorded[p] <= s.clock)
    && (forall p :: p in s.seen ==> s.seen[p] == s.recorded[p])
    && (forall p :: p in s.recorded && p !in s.seen ==> s.recorded[p] < s.clock - 30 * DAY)
  }

  lemma StepKeeps(s: State, step: Step)
    requires Inv(s) && Enabled(s, step)
    ensures Inv(Next(s, step))
  {
  }

  ghost predicate Reaches(a: State, steps: seq<Step>, b: State)
    decreases |steps|
  {
    if steps == [] then a == b
    else Enabled(a, steps[0]) && Reaches(Next(a, steps[0]), steps[1..], b)
  }

  lemma {:induction false} ReachesKeepsInv(a: State, steps: seq<Step>, b: State)
    requires Inv(a) && Reaches(a, steps, b)
    ensures Inv(b) && a.clock <= b.clock
    ensures forall p :: p in a.recorded ==> p in b.recorded && a.recorded[p] <= b.recorded[p]
    decreases |steps|
  {
    if steps != [] {
      StepKeeps(a, steps[0]);
      ReachesKeepsInv(Next(a, steps[0]), steps[1..], b);
    }
  }

  const NOTHING: State := State(map[], map[], 0, map[])

  /** The stray sweep deletes a credential exactly when it is a config one, its last save is
      over a week old, and no process has recorded its definition within the week. Purging
      stamp_seen never changes that. */
  lemma StraysAreUnsavedAndUnserved(steps: seq<Step>, s: State, k: CredKey)
    requires Reaches(NOTHING, steps, s) && k in s.creds
    ensures k !in Next(s, SweepStrays).creds <==>
      && !k.stamp.IsAdmin()
      && s.creds[k].updatedAt < s.clock - STRAY_AGE
      && ((k.target, k.stamp) in s.recorded ==> s.recorded[(k.target, k.stamp)] <= s.clock - STRAY_AGE)
  {
    ReachesKeepsInv(NOTHING, steps, s);
  }

  /** A process records what it serves before it sweeps. Whatever the others do between the
      two, for up to a week, its own sweep deletes no credential of a definition it serves. */
  lemma NoProcessSweepsWhatItServes(before: seq<Step>, a: State, served: set<Served>, between: seq<Step>, b: State, k: CredKey)
    requires Reaches(NOTHING, before, a)
    requires Reaches(Next(a, Record(served)), between, b) && b.clock < a.clock + STRAY_AGE
    requires (k.target, k.stamp) in served && k in b.creds
    ensures k in Next(b, SweepStrays).creds
  {
    ReachesKeepsInv(NOTHING, before, a);
    StepKeeps(a, Record(served));
    ReachesKeepsInv(Next(a, Record(served)), between, b);
    var p := (k.target, k.stamp);
    assert p in Next(a, Record(served)).recorded;
  }
}
