/**
 * The waypoint editor object: one driver per airframe, the one in use, and `enter_all`
 * handed to it.
 */
module Editor {
  import opened Wrappers
  import opened Profiles
  import opened Runs
  import opened Drivers
  import Hornet
  import Harrier
  import Mirage
  import Tomcat
  import Warthog
  import Viper
  import ViperDriving

  /** The airframes the editor has a driver for. */
  datatype Airframe = HornetFrame | HarrierFrame | MirageFrame | TomcatFrame | WarthogFrame | ViperFrame

  /** The driver table's keys and the airframe each selects, in the table's order. */
  function DriverNames(): seq<(string, Airframe)> {
    [("hornet", HornetFrame), ("harrier", HarrierFrame), ("mirage", MirageFrame),
     ("tomcat", TomcatFrame), ("warthog", WarthogFrame), ("viper", ViperFrame)]
  }

  /** `self.drivers[name]`, `None` for the `KeyError` of a name not in the table. */
  function DriverOf(name: string): (r: Option<Airframe>)
    ensures r.Some? <==> name in DriverKeys()
    ensures r.Some? ==> (name, r.value) in DriverNames()
  {
    if name == "hornet" then Some(HornetFrame)
    else if name == "harrier" then Some(HarrierFrame)
    else if name == "mirage" then Some(MirageFrame)
    else if name == "tomcat" then Some(TomcatFrame)
    else if name == "warthog" then Some(WarthogFrame)
    else if name == "viper" then Some(ViperFrame)
    else None
  }

  /** The keys of the driver table. */
  function DriverKeys(): (keys: seq<string>)
    ensures |keys| == |DriverNames()| && forall k :: 0 <= k < |keys| ==> keys[k] == DriverNames()[k].0
  {
    ["hornet", "harrier", "mirage", "tomcat", "warthog", "viper"]
  }

  /** The number of an airframe in the table. */
  function FrameIndex(a: Airframe): nat {
    match a
    case HornetFrame => 0
    case HarrierFrame => 1
    case MirageFrame => 2
    case TomcatFrame => 3
    case WarthogFrame => 4
    case ViperFrame => 5
  }

  /** The table has six keys, each selecting its own airframe, and every airframe is selected by one key. */
  lemma DriverTable()
    ensures |DriverNames()| == 6
    ensures forall a: Airframe :: DriverOf(DriverNames()[FrameIndex(a)].0) == Some(a)
    ensures forall k :: 0 <= k < 6 ==> FrameIndex(DriverNames()[k].1) == k
  {
    forall a: Airframe ensures DriverOf(DriverNames()[FrameIndex(a)].0) == Some(a) {
      match a
      case HornetFrame =>
      case HarrierFrame =>
      case MirageFrame =>
      case TomcatFrame =>
      case WarthogFrame =>
      case ViperFrame =>
    }
  }

  class WaypointEditor {
    const hornet: Hornet.HornetDriver
    const harrier: Harrier.HarrierDriver
    const mirage: Mirage.MirageDriver
    const tomcat: Tomcat.TomcatDriver
    const warthog: Warthog.WarthogDriver
    const viper: ViperDriving.ViperDriver
    /** The driver in use. */
    var driver: Airframe

    /** Every driver is ready, each over its own base object. */
    ghost predicate Valid()
      reads this, hornet.base, harrier.base, mirage.base, tomcat.base, warthog.base, viper.base
    {
      hornet.base.Valid() && hornet.base.limits == Hornet.HornetLimits
      && harrier.base.Valid() && harrier.base.limits == Harrier.HarrierLimits
      && mirage.base.Valid() && mirage.base.limits == Mirage.MirageLimits()
      && tomcat.base.Valid() && tomcat.base.limits == Tomcat.TomcatLimits()
      && warthog.base.Valid() && warthog.base.limits == Warthog.WarthogLimits()
      && viper.base.Valid() && viper.base.limits == Viper.ViperLimits()
      && hornet.base != harrier.base && hornet.base != mirage.base && hornet.base != tomcat.base
      && hornet.base != warthog.base && hornet.base != viper.base
      && harrier.base != mirage.base && harrier.base != tomcat.base && harrier.base != warthog.base
      && harrier.base != viper.base
      && mirage.base != tomcat.base && mirage.base != warthog.base && mirage.base != viper.base
      && tomcat.base != warthog.base && tomcat.base != viper.base
      && warthog.base != viper.base
    }

    /** The base objects of the six drivers. */
    ghost function Bases(): set<Driver>
      reads this
    {
      {hornet.base, harrier.base, mirage.base, tomcat.base, warthog.base, viper.base}
    }

    /** The base object of the driver in use. */
    function Current(): (d: Driver)
      reads this
      ensures d in Bases()
    {
      match driver
      case HornetFrame => hornet.base
      case HarrierFrame => harrier.base
      case MirageFrame => mirage.base
      case TomcatFrame => tomcat.base
      case WarthogFrame => warthog.base
      case ViperFrame => viper.base
    }

    /** `__init__`: a fresh driver for each airframe, nothing sent yet, the F-16C driver in use. */
    constructor (render: Renderer, dgftCycle: string)
      ensures Valid() && driver == ViperFrame
      ensures forall d :: d in Bases() ==> fresh(d) && d.sent == [] && d.render == render
      ensures viper.dgftCycle == dgftCycle
    {
      hornet := new Hornet.HornetDriver(render);
      harrier := new Harrier.HarrierDriver(render);
      mirage := new Mirage.MirageDriver(render);
      tomcat := new Tomcat.TomcatDriver(render);
      warthog := new Warthog.WarthogDriver(render);
      viper := new ViperDriving.ViperDriver(render, dgftCycle);
      driver := ViperFrame;
    }

    /** `set_driver`: a name of the table selects its driver; any other raises and keeps the driver in use. */
    method SetDriver(name: string) returns (r: Result<(), string>)
      modifies this`driver
      ensures DriverOf(name).Some? ==> r.Ok? && driver == DriverOf(name).value
      ensures DriverOf(name).None? ==> r == Err("Undefined driver: " + name) && driver == old(driver)
    {
      var a := DriverOf(name);
      if a.None? {
        return Err("Undefined driver: " + name);
      }
      driver := a.value;
      r := Ok(());
    }

    /**
     * `d` has performed an `enter_all`: its step is 100 over `parts`, and its trace, queues
     * and progress are those of running `plan` from a reset counter and closing the run.
     */
    twostate predicate RanPlan(d: Driver, cq: CommandQueue?, pq: ProgressQueue?, st: Status, parts: nat, plan: seq<Step>)
      requires parts > 0
      reads d, cq, pq
    {
      && d.progStep == StepSize(parts)
      && d.Snap(cq, pq, st) == Exec(old(d.Snap(cq, pq, Running)).(cur := 0.0), d.progStep, plan + [Finish])
    }

    /** The Hornet driver has performed its `enter_all` on the profile. */
    twostate predicate HornetRan(p: Profile, db: map<string, AvRecord>, cq: CommandQueue?, pq: ProgressQueue?, st: Status)
      reads this, hornet.base, p, cq, pq
    {
      RanPlan(hornet.base, cq, pq, st, Hornet.HornetParts(p.waypoints),
              Hornet.HornetBody(hornet.base.render, p.waypoints))
    }

    /** The Harrier driver has performed its `enter_all` on the profile. */
    twostate predicate HarrierRan(p: Profile, db: map<string, AvRecord>, cq: CommandQueue?, pq: ProgressQueue?, st: Status)
      reads this, harrier.base, p, cq, pq
    {
      RanPlan(harrier.base, cq, pq, st, Harrier.HarrierParts(p.waypoints),
              Harrier.WaypointsPlan(harrier.base.render, Harrier.HarrierWaypoints(p.waypoints)))
    }

    /** The Mirage driver has performed its `enter_all` on the profile. */
    twostate predicate MirageRan(p: Profile, db: map<string, AvRecord>, cq: CommandQueue?, pq: ProgressQueue?, st: Status)
      reads this, mirage.base, p, cq, pq
    {
      RanPlan(mirage.base, cq, pq, st, Mirage.MirageParts(p.waypoints),
              Mirage.WaypointsPlan(mirage.base.render, Mirage.MirageWaypoints(p.waypoints)))
    }

    /** The Tomcat driver has performed its `enter_all` on the profile. */
    twostate predicate TomcatRan(p: Profile, db: map<string, AvRecord>, cq: CommandQueue?, pq: ProgressQueue?, st: Status)
      reads this, tomcat.base, p, cq, pq
    {
      RanPlan(tomcat.base, cq, pq, st, Tomcat.TomcatParts(p.waypoints),
              Tomcat.WaypointsPlan(tomcat.base.render, Tomcat.TomcatWaypoints(p.waypoints)))
    }

    /** The Warthog driver has performed its `enter_all` on the profile. */
    twostate predicate WarthogRan(p: Profile, db: map<string, AvRecord>, cq: CommandQueue?, pq: ProgressQueue?, st: Status)
      reads this, warthog.base, p, cq, pq
    {
      RanPlan(warthog.base, cq, pq, st, Warthog.WarthogParts(p.waypoints),
              Warthog.WaypointsPlan(warthog.base.render, Warthog.WarthogWaypoints(p.waypoints)))
    }

    /** The F-16C driver has performed its `enter_all` on the profile. */
    twostate predicate ViperRan(p: Profile, db: map<string, AvRecord>, cq: CommandQueue?, pq: ProgressQueue?, st: Status)
      reads this, viper.base, p, cq, pq
    {
      RanPlan(viper.base, cq, pq, st, Viper.ViperParts(p.waypoints, Viper.ProfileDict(p.avSetupName, p.aircraft, db)),
              Viper.ViperBody(viper.base.render, viper.dgftCycle, p.waypoints, Viper.ProfileDict(p.avSetupName, p.aircraft, db)))
    }

    /**
     * The driver in use has performed its own `enter_all` on the profile and the same
     * queues: its step is 100 over its part count, and its trace, queues and progress are
     * those of running its plan from a reset counter and closing the run.
     */
    twostate predicate Delegated(p: Profile, db: map<string, AvRecord>, cq: CommandQueue?, pq: ProgressQueue?, st: Status)
      reads this, hornet.base, harrier.base, mirage.base, tomcat.base, warthog.base, viper.base, p, cq, pq
    {
      match driver
      case HornetFrame => HornetRan(p, db, cq, pq, st)
      case HarrierFrame => HarrierRan(p, db, cq, pq, st)
      case MirageFrame => MirageRan(p, db, cq, pq, st)
      case TomcatFrame => TomcatRan(p, db, cq, pq, st)
      case WarthogFrame => WarthogRan(p, db, cq, pq, st)
      case ViperFrame => ViperRan(p, db, cq, pq, st)
    }

    /**
     * `enter_all`: the driver in use enters the profile with the same queues, and the
     * others send nothing. The F-16C driver reads the profile's avionics setup from `db`.
     */
    method EnterAll(p: Profile, db: map<string, AvRecord>, cq: CommandQueue?, pq: ProgressQueue?) returns (st: Status)
      requires Valid()
      modifies Current(), cq, pq
      ensures Delegated(p, db, cq, pq, st)
    {
      match driver
      case HornetFrame => st := EnterHornet(p, db, cq, pq);
      case HarrierFrame => st := EnterHarrier(p, db, cq, pq);
      case MirageFrame => st := EnterMirage(p, db, cq, pq);
      case TomcatFrame => st := EnterTomcat(p, db, cq, pq);
      case WarthogFrame => st := EnterWarthog(p, db, cq, pq);
      case ViperFrame => st := EnterViper(p, db, cq, pq);
    }

    /** `enter_all` with the Hornet driver in use. */
    method EnterHornet(p: Profile, db: map<string, AvRecord>, cq: CommandQueue?, pq: ProgressQueue?) returns (st: Status)
      requires Valid() && driver == HornetFrame
      modifies hornet.base, cq, pq
      ensures Delegated(p, db, cq, pq, st)
    {
      st := hornet.EnterAll(p, cq, pq);
    }

    /** `enter_all` with the Harrier driver in use. */
    method EnterHarrier(p: Profile, db: map<string, AvRecord>, cq: CommandQueue?, pq: ProgressQueue?) returns (st: Status)
      requires Valid() && driver == HarrierFrame
      modifies harrier.base, cq, pq
      ensures Delegated(p, db, cq, pq, st)
    {
      st := harrier.EnterAll(p, cq, pq);
    }

    /** `enter_all` with the Mirage driver in use. */
    method EnterMirage(p: Profile, db: map<string, AvRecord>, cq: CommandQueue?, pq: ProgressQueue?) returns (st: Status)
      requires Valid() && driver == MirageFrame
      modifies mirage.base, cq, pq
      ensures Delegated(p, db, cq, pq, st)
    {
      st := mirage.EnterAll(p, cq, pq);
    }

    /** `enter_all` with the Tomcat driver in use. */
    method EnterTomcat(p: Profile, db: map<string, AvRecord>, cq: CommandQueue?, pq: ProgressQueue?) returns (st: Status)
      requires Valid() && driver == TomcatFrame
      modifies tomcat.base, cq, pq
      ensures Delegated(p, db, cq, pq, st)
    {
      st := tomcat.EnterAll(p, cq, pq);
    }

    /** `enter_all` with the Warthog driver in use. */
    method EnterWarthog(p: Profile, db: map<string, AvRecord>, cq: CommandQueue?, pq: ProgressQueue?) returns (st: Status)
      requires Valid() && driver == WarthogFrame
      modifies warthog.base, cq, pq
      ensures Delegated(p, db, cq, pq, st)
    {
      st := warthog.EnterAll(p, cq, pq);
    }

    /** `enter_all` with the Viper driver in use. */
    method EnterViper(p: Profile, db: map<string, AvRecord>, cq: CommandQueue?, pq: ProgressQueue?) returns (st: Status)
      requires Valid() && driver == ViperFrame
      modifies viper.base, cq, pq
      ensures Delegated(p, db, cq, pq, st)
    {
      st := viper.EnterAll(p, db, cq, pq);
    }
  }
}
