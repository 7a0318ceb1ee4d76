/** The shapes the generated updaters work on: annotated types, their values, updates and diffs. */
module Schema {
  import opened Optional

  datatype MachineStatus =
    | Disconnected | Connecting | Idle | Printing | Printed | Paused | Canceled

  /** The properties of the annotated types. */
  datatype Property =
    | Name | Color | FProfileIDX | Number | Material | GramsMaximum
    | GramsRemaining | ID | Capacity | Model | Capabilities | HeatingConstraints
    | Trays | HumidityPercent | TemperatureC | HeatingJob | HeatingSchedule | Diameter
    | HeatingConstraint | TempC | TargetTempC | NozzleNumber | LoadedSpool | CustomID
    | PercentageComplete | RemainingTime | TotalTime | Issue | Thumbnail | File
    | SubStage | TotalMaterialUsage | LocalPath | PrintSpeedPercent | Message | IssuedAt
    | LastSeenAt | Brand | Nickname | Status | CurrentJob | JobHistory
    | LocalJobs | ScheduledPrints | Extruders | Nozzles | MaterialUnits | AirDuctMode
    | Fans | Lights | HeatingElements | IsLocalStorageScanning | StreamingURLs | SpeedRange
    | SpeedPresets | Notifications

  /** When a message resolves itself; an absent field is a null one. */
  datatype AutoResolve = AutoResolve(whenConnected: Option<bool>,
                                     whenStatus: Option<MachineStatus>,
                                     whenPrinting: Option<bool>)

  /** A value the generated code only ever copies and compares. */
  datatype Atom =
    | Null
    | Int(n: int)
    | Text(s: string)
    | Time(at: int)
    | StatusAtom(status: MachineStatus)
    | MessageAtom(id: string, title: string, autoResolve: AutoResolve)
    | JobAtom(name: string, file: int)
    | PrintAtom(job: string, jobFile: int, when: int)

  /**
   * One property of an annotated type, or (Object) the whole type.  `required` is the
   * generator's IsRequiredToCreate; `dflt` is what the property holds when nothing assigns it;
   * `keyProp` is the property an entry's updater is given the key in, when that updater is a class
   * (a struct updater would be changed in a copy).
   */
  datatype Kind =
    | Scalar(required: bool, initOnly: bool, dflt: Atom)
    | Dict
    | Set
    | DictOf(entry: Kind, keyProp: Option<Property>)
    | Nested(inner: Kind, mandatory: bool)
    | Object(props: map<Property, Kind>)

  /** A value of a kind.  Sub(None) is a null reference. */
  datatype Value =
    | One(a: Atom)
    | Plain(m: map<Atom, Atom>)
    | Elems(s: set<Atom>)
    | Entries(e: map<Atom, Value>)
    | Sub(o: Option<Value>)
    | Obj(fields: map<Property, Value>)

  /** An updater.  A property that is not set is absent from the map of UpdObj, or Keep. */
  datatype Update =
    | Keep
    | SetOne(a: Atom)
    | UpdPlain(put: map<Atom, Atom>, drop: set<Atom>)
    | UpdElems(add: set<Atom>, del: set<Atom>)
    | UpdEntries(upd: map<Atom, Update>, rem: set<Atom>)
    | UpdSub(sub: Update)
    | UpdObj(parts: map<Property, Update>)

  /** A Changes record.  Same is an unset flag, a null nested record or an all-empty one. */
  datatype Diff =
    | Same
    | Changed(previous: Atom, current: Atom)
    | PlainDiff(added: map<Atom, Atom>, removed: set<Atom>, updated: map<Atom, Atom>)
    | ElemsDiff(plus: set<Atom>, minus: set<Atom>)
    | EntriesDiff(born: map<Atom, Value>, gone: set<Atom>, touched: map<Atom, Diff>)
    | SubDiff(inner: Diff)
    | ObjDiff(deltas: map<Property, Diff>)

  /** The part of an object update that concerns one property. */
  function Part(parts: map<Property, Update>, p: Property): Update {
    if p in parts then parts[p] else Keep
  }

  /** The C# type system: v is a value of kind k. */
  predicate Fits(k: Kind, v: Value)
    decreases k
  {
    match k
    case Scalar(_, _, _) => v.One?
    case Dict => v.Plain?
    case Set => v.Elems?
    case DictOf(entry, _) => v.Entries? && forall x | x in v.e :: Fits(entry, v.e[x])
    case Nested(inner, _) => v.Sub? && (v.o.Some? ==> Fits(inner, v.o.value))
    case Object(props) => v.Obj? && v.fields.Keys == props.Keys && forall p | p in props :: Fits(props[p], v.fields[p])
  }

  /** The C# type system: u is an updater (or one property of an updater) for kind k. */
  predicate FitsUpdate(k: Kind, u: Update)
    decreases k
  {
    match k
    case Scalar(_, _, _) => u.Keep? || u.SetOne?
    case Dict => u.Keep? || u.UpdPlain?
    case Set => u.Keep? || u.UpdElems?
    case DictOf(entry, key) =>
      u.Keep? || (u.UpdEntries? && forall x | x in u.upd :: u.upd[x].UpdObj? && FitsUpdate(entry, u.upd[x]))
    case Nested(inner, _) => u.Keep? || (u.UpdSub? && u.sub.UpdObj? && FitsUpdate(inner, u.sub))
    case Object(props) => u.UpdObj? && u.parts.Keys <= props.Keys && forall p | p in u.parts :: FitsUpdate(props[p], u.parts[p])
  }

  /**
   * Annotated types occur as dictionary values and as nested properties; a key property is a scalar
   * of its entry.
   */
  predicate WellFormed(k: Kind)
    decreases k
  {
    match k
    case DictOf(entry, key) =>
      && WellFormed(entry) && entry.Object?
      && (key.Some? ==> key.value in entry.props && entry.props[key.value].Scalar?)
    case Nested(inner, _) => WellFormed(inner) && inner.Object?
    case Object(props) => forall p | p in props :: WellFormed(props[p]) && !props[p].Object?
    case _ => true
  }
}
