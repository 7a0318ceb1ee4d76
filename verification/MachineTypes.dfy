/**
 * The annotated types of the machine state, as kinds.  Spools, nozzles and extruders are structs, so
 * assigning the key to their updater in a foreach loop is lost; only material units are keyed.
 */
module MachineTypes {
  import opened Optional
  import opened Schema
  import opened DiffEngine
  import opened ReplayExact
  import opened Connection

  const MATERIAL := Object(map[Name := Scalar(true, false, Null), Color := Scalar(true, false, Null),
                               FProfileIDX := Scalar(false, false, Null)])
  const SPOOL := Object(map[Number := Scalar(true, false, Int(0)), Material := Nested(MATERIAL, true),
                            GramsMaximum := Scalar(false, false, Null), GramsRemaining := Scalar(false, false, Null)])
  const MATERIAL_UNIT := Object(map[ID := Scalar(true, false, Null), Capacity := Scalar(true, false, Int(0)),
                                    Model := Scalar(false, false, Null), Capabilities := Scalar(true, false, Int(0)),
                                    HeatingConstraints := Scalar(false, false, Null), Trays := DictOf(SPOOL, None),
                                    HumidityPercent := Scalar(false, false, Null), TemperatureC := Scalar(false, false, Null),
                                    HeatingJob := Scalar(false, false, Null), HeatingSchedule := Set])
  const NOZZLE := Object(map[Number := Scalar(true, false, Int(0)), Diameter := Scalar(true, false, Int(0))])
  const EXTRUDER := Object(map[Number := Scalar(true, false, Int(0)), HeatingConstraint := Scalar(true, false, Null),
                               TempC := Scalar(true, false, Int(0)), TargetTempC := Scalar(false, false, Null),
                               NozzleNumber := Scalar(false, false, Null), LoadedSpool := Scalar(false, false, Null)])
  const PRINT_JOB := Object(map[Name := Scalar(true, false, Null), CustomID := Scalar(false, false, Null),
                                PercentageComplete := Scalar(true, false, Int(0)), RemainingTime := Scalar(true, false, Int(0)),
                                TotalTime := Scalar(true, false, Int(0)), Issue := Scalar(false, false, Null),
                                Thumbnail := Scalar(false, false, Null), File := Scalar(false, false, Null),
                                SubStage := Scalar(false, false, Null), TotalMaterialUsage := Scalar(false, false, Null),
                                LocalPath := Scalar(false, false, Null), PrintSpeedPercent := Scalar(false, false, Null)])
  const NOTIFICATION := Object(map[Message := Scalar(true, false, Null), IssuedAt := Scalar(true, true, Time(0)),
                                   LastSeenAt := Scalar(true, false, Time(0))])
  const MACHINE_SCALARS := map[
    Brand := Scalar(false, false, Null), Model := Scalar(false, false, Null), Nickname := Scalar(false, false, Null),
    Capabilities := Scalar(true, false, Int(0)), Status := Scalar(true, false, StatusAtom(Disconnected)),
    AirDuctMode := Scalar(true, false, Int(0)), IsLocalStorageScanning := Scalar(true, false, Int(0)),
    StreamingURLs := Scalar(false, false, Null), SpeedRange := Scalar(false, false, Null)]
  const MACHINE_COLLECTIONS := map[
    JobHistory := Set, LocalJobs := Set, ScheduledPrints := Set, Fans := Dict, Lights := Dict, HeatingElements := Dict,
    SpeedPresets := Dict, Extruders := DictOf(EXTRUDER, None), Nozzles := DictOf(NOZZLE, None),
    MaterialUnits := DictOf(MATERIAL_UNIT, Some(ID)), Notifications := DictOf(NOTIFICATION, None)]
  const MACHINE_STATE := Object(MACHINE_SCALARS + MACHINE_COLLECTIONS + map[CurrentJob := Nested(PRINT_JOB, false)])

  lemma {:induction false} EntryTypesWellFormed()
    ensures WellFormed(MATERIAL) && WellFormed(NOZZLE) && WellFormed(EXTRUDER) && WellFormed(NOTIFICATION)
  {
  }

  lemma {:induction false} PrintJobWellFormed()
    ensures WellFormed(Nested(PRINT_JOB, false))
  {
    assert WellFormed(PRINT_JOB);
  }

  lemma {:induction false} SpoolWellFormed()
    ensures WellFormed(DictOf(SPOOL, None))
  {
    EntryTypesWellFormed();
    assert WellFormed(Nested(MATERIAL, true));
    assert WellFormed(SPOOL);
  }

  lemma {:induction false} MaterialUnitWellFormed()
    ensures WellFormed(DictOf(MATERIAL_UNIT, Some(ID)))
  {
    hide SPOOL;
    SpoolWellFormed();
    assert WellFormed(MATERIAL_UNIT);
  }

  lemma {:induction false} DictionariesWellFormed()
    ensures WellFormed(DictOf(EXTRUDER, None)) && WellFormed(DictOf(NOZZLE, None))
    ensures WellFormed(DictOf(NOTIFICATION, None)) && IsNotification(NOTIFICATION)
  {
    EntryTypesWellFormed();
  }

  lemma {:induction false} PlainPropertiesWellFormed()
    ensures WellFormed(Dict) && WellFormed(Set) && forall r, i, d :: WellFormed(Scalar(r, i, d))
  {
  }

  lemma {:induction false} ObjectWellFormed(props: map<Property, Kind>)
    requires forall p | p in props :: WellFormed(props[p]) && !props[p].Object?
    ensures WellFormed(Object(props))
  {
  }

  lemma {:induction false} MergedWellFormed(a: map<Property, Kind>, b: map<Property, Kind>)
    requires WellFormed(Object(a)) && WellFormed(Object(b))
    ensures WellFormed(Object(a + b))
  {
  }

  lemma {:induction false} ScalarsWellFormed()
    ensures WellFormed(Object(MACHINE_SCALARS))
  {
    hide WellFormed;
    PlainPropertiesWellFormed();
    ObjectWellFormed(MACHINE_SCALARS);
  }

  lemma {:induction false} CollectionsWellFormed()
    ensures WellFormed(Object(MACHINE_COLLECTIONS))
  {
    hide WellFormed, IsNotification;
    MaterialUnitWellFormed();
    DictionariesWellFormed();
    PlainPropertiesWellFormed();
    ObjectWellFormed(MACHINE_COLLECTIONS);
  }

  lemma {:induction false} MachineStateWellFormed()
    ensures WellFormed(MACHINE_STATE)
  {
    hide WellFormed, MACHINE_SCALARS, MACHINE_COLLECTIONS, PRINT_JOB;
    ScalarsWellFormed();
    CollectionsWellFormed();
    MergedWellFormed(MACHINE_SCALARS, MACHINE_COLLECTIONS);
    PrintJobWellFormed();
    ObjectWellFormed(map[CurrentJob := Nested(PRINT_JOB, false)]);
    MergedWellFormed(MACHINE_SCALARS + MACHINE_COLLECTIONS, map[CurrentJob := Nested(PRINT_JOB, false)]);
  }

  /** The machine state has the shape the commit results ask for. */
  lemma {:induction false} MachineStateIsMachine()
    ensures IsMachine(MACHINE_STATE)
  {
    hide WellFormed, IsNotification, MACHINE_SCALARS, MACHINE_COLLECTIONS, PRINT_JOB, NOTIFICATION;
    MachineStateWellFormed();
    DictionariesWellFormed();
    CommitProperties();
  }

  lemma {:induction false} CommitProperties()
    ensures Status in MACHINE_SCALARS && MACHINE_SCALARS[Status] == Scalar(true, false, StatusAtom(Disconnected))
    ensures Status !in MACHINE_COLLECTIONS
    ensures Notifications in MACHINE_COLLECTIONS && MACHINE_COLLECTIONS[Notifications] == DictOf(NOTIFICATION, None)
    ensures LocalJobs in MACHINE_COLLECTIONS && MACHINE_COLLECTIONS[LocalJobs] == Set
    ensures ScheduledPrints in MACHINE_COLLECTIONS && MACHINE_COLLECTIONS[ScheduledPrints] == Set
  {
    hide EXTRUDER, NOZZLE, MATERIAL_UNIT, NOTIFICATION;
  }

  /**
   * A progress update of a running job that leaves its name unset (as the Creality connector sends)
   * is reported to every client but never reaches the state: TryCreate fails, while the diff is made
   * against the old job.  The replay condition is false of it, as it must be.
   */
  lemma {:induction false} ProgressIsReportedNotApplied(sub: Update, job: Value, percent: Atom)
    requires Fits(PRINT_JOB, job) && FitsUpdate(PRINT_JOB, sub) && sub.UpdObj?
    requires Name !in sub.parts && Part(sub.parts, PercentageComplete) == SetOne(percent)
    requires job.Obj? && PercentageComplete in job.fields && job.fields[PercentageComplete] != One(percent)
    ensures var k, u, v := Nested(PRINT_JOB, false), UpdSub(sub), Sub(Some(job));
      Apply(k, u, v) == v && HasChanged(Changes(k, u, v)) && Replay(Changes(k, u, v), v) != v && !ReplayAgrees(k, u, v)
  {
    PrintJobMembers();
    JobFits(job);
    hide PRINT_JOB, Fits, FitsUpdate, Apply, Changes, Replay, HasChanged, ReplayAgrees;
    ProgressChanged(PRINT_JOB, sub, job, percent);
    RequiredMissing(PRINT_JOB, sub);
    ReportedNotApplied(PRINT_JOB, sub, job);
  }

  lemma {:induction false} RequiredMissing(k: Kind, sub: Update)
    requires k.Object? && Name in k.props && k.props[Name] == Scalar(true, false, Null) && sub.UpdObj? && Name !in sub.parts
    ensures !CanCreate(k, sub)
  {
    assert !CanCreate(k.props[Name], Part(sub.parts, Name));
  }

  /** Any nested property whose updater cannot create a value but contradicts the old one. */
  lemma {:induction false} ReportedNotApplied(inner: Kind, sub: Update, was: Value)
    requires !CanCreate(inner, sub) && HasChanged(Changes(inner, sub, was))
    ensures var k, u, v := Nested(inner, false), UpdSub(sub), Sub(Some(was));
      Apply(k, u, v) == v && HasChanged(Changes(k, u, v)) && Replay(Changes(k, u, v), v) != v && !ReplayAgrees(k, u, v)
  {
    HasChangedIsExact(Nested(inner, false), UpdSub(sub), Sub(Some(was)));
    QuietIsExact(inner, sub, was);
  }

  /**
   * A job that starts where there was none reaches the state and is reported to nobody: Changes(null)
   * is the empty record.
   */
  lemma {:induction false} JobStartIsAppliedNotReported(sub: Update)
    requires CanCreate(PRINT_JOB, sub)
    ensures var k, u, v := Nested(PRINT_JOB, false), UpdSub(sub), Sub(None);
      Apply(k, u, v) == Sub(Some(Create(PRINT_JOB, sub))) && !HasChanged(Changes(k, u, v)) && !ReplayAgrees(k, u, v)
  {
    hide PRINT_JOB;
    AppliedNotReported(PRINT_JOB, sub);
  }

  /** Any nested property that is created where there was none. */
  lemma {:induction false} AppliedNotReported(inner: Kind, sub: Update)
    ensures var k, u, v := Nested(inner, false), UpdSub(sub), Sub(None);
      && !HasChanged(Changes(k, u, v)) && (ReplayAgrees(k, u, v) <==> Apply(k, u, v) == v)
      && Apply(k, u, v) == if CanCreate(inner, sub) then Sub(Some(Create(inner, sub))) else v
  {
  }

  lemma {:induction false} JobFits(job: Value)
    requires Fits(PRINT_JOB, job)
    ensures job.Obj? && PercentageComplete in job.fields && job.fields[PercentageComplete].One?
  {
  }

  lemma {:induction false} PrintJobMembers()
    ensures PRINT_JOB.Object? && Name in PRINT_JOB.props && PRINT_JOB.props[Name] == Scalar(true, false, Null)
    ensures PercentageComplete in PRINT_JOB.props && PRINT_JOB.props[PercentageComplete] == Scalar(true, false, Int(0))
  {
  }

  lemma {:induction false} ProgressChanged(k: Kind, u: Update, v: Value, percent: Atom)
    requires k.Object? && u.UpdObj? && v.Obj? && PercentageComplete in k.props && PercentageComplete in v.fields
    requires k.props[PercentageComplete] == Scalar(true, false, Int(0)) && v.fields[PercentageComplete].One?
    requires Part(u.parts, PercentageComplete) == SetOne(percent) && v.fields[PercentageComplete] != One(percent)
    ensures HasChanged(Changes(k, u, v))
  {
    var d := Changes(k, u, v);
    assert u.parts[PercentageComplete] == SetOne(percent);
    assert d.deltas[PercentageComplete] == Changes(k.props[PercentageComplete], SetOne(percent), v.fields[PercentageComplete]);
    assert d.deltas[PercentageComplete] == Changed(v.fields[PercentageComplete].a, percent);
    assert HasChanged(d.deltas[PercentageComplete]);
  }
}
