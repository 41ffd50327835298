/**
  The first-generation console engine (VolMixerConsole/VolMixer.cs). It keys its
  mapping by "Port_<channel>", keeps one process id per application, finds
  processes by a case-insensitive name among those the mixer knows, and hands the
  parsed volume unchanged to `VolumeMixer.SetApplicationVolume`.

  The OS process list is a value: the processes in enumeration order, each with
  its id, its name and whether the mixer reports a volume for it (the
  `VolumeMixer.GetApplicationVolume(id) != null` filter). `VolumeMixer` is not part
  of this model, so a volume change is recorded as a call rather than applied.
*/
module LegacyEngine {
  import opened Wrappers
  import opened Text
  import opened Config
  import opened Serial

  datatype ProcessInfo = ProcessInfo(id: nat, name: string, inMixer: bool)

  /** `Process.GetProcessById(pid)` succeeds. */
  predicate Running(world: seq<ProcessInfo>, pid: int)
  {
    exists i :: 0 <= i < |world| && world[i].id == pid
  }

  /** A process the lookup by name accepts for `name`. */
  predicate Candidate(info: ProcessInfo, name: string)
  {
    info.inMixer && EqualsIgnoreCase(info.name, name)
  }

  /** Index of the first candidate process for `name`. */
  function FirstCandidate(world: seq<ProcessInfo>, name: string): (r: Option<nat>)
    ensures r.Some? ==> r.value < |world| && Candidate(world[r.value], name)
    ensures r.Some? ==> forall j :: 0 <= j < r.value ==> !Candidate(world[j], name)
    ensures r.None? <==> forall j :: 0 <= j < |world| ==> !Candidate(world[j], name)
  {
    if world == [] then None
    else if Candidate(world[0], name) then Some(0)
    else
      match FirstCandidate(world[1..], name)
      case None => None
      case Some(i) => Some(i + 1)
  }

  /** The id `GetProcessIdByName` returns: the first candidate's, or -1. */
  function ProcessIdByName(world: seq<ProcessInfo>, name: string): (r: int)
    ensures r == -1 <==> forall j :: 0 <= j < |world| ==> !Candidate(world[j], name)
    ensures r != -1 ==> exists j :: 0 <= j < |world| && world[j].id == r && Candidate(world[j], name)
  {
    match FirstCandidate(world, name)
    case None => -1
    case Some(i) => world[i].id
  }

  /** Names that differ only in ASCII letter case find the same process. */
  lemma ProcessIdByNameIgnoresCase(world: seq<ProcessInfo>, a: string, b: string)
    requires EqualsIgnoreCase(a, b)
    ensures ProcessIdByName(world, a) == ProcessIdByName(world, b)
  {
    assert forall info: ProcessInfo :: Candidate(info, a) == Candidate(info, b);
    FirstCandidateSame(world, a, b);
  }

  lemma {:induction false} FirstCandidateSame(world: seq<ProcessInfo>, a: string, b: string)
    requires forall info: ProcessInfo :: Candidate(info, a) == Candidate(info, b)
    ensures FirstCandidate(world, a) == FirstCandidate(world, b)
  {
    if world != [] {
      FirstCandidateSame(world[1..], a, b);
    }
  }

  method GetProcessIdByName(world: seq<ProcessInfo>, procName: string) returns (r: int)
    ensures r == ProcessIdByName(world, procName)
  {
    for i := 0 to |world|
      invariant forall j :: 0 <= j < i ==> !Candidate(world[j], procName)
    {
      if world[i].inMixer {
        if Upper(world[i].name) == Upper(procName) {
          return world[i].id;
        }
      }
    }
    return -1;
  }

  // ---------------------------------------------------------------------------
  // Construction: the process mapping built from the port mapping

  datatype LegacyBuild =
    | Complete(mapping: map<string, int>)             // every application found
    | Stopped(mapping: map<string, int>, at: string)  // `return` on the first application not found
    | DuplicateApplication(application: string)       // `Add` of a key already present throws

  /**
    The loop of the constructor from `acc` on: entries with an empty value are
    skipped, the first application not found ends construction early with the
    entries added so far, and an application seen twice throws.
  */
  function BuildFrom(portMapping: seq<Setting>, world: seq<ProcessInfo>, acc: map<string, int>): (r: LegacyBuild)
    ensures r.Complete? || r.Stopped? ==> forall a :: a in acc ==> a in r.mapping && r.mapping[a] == acc[a]
    decreases |portMapping|
  {
    if portMapping == [] then Complete(acc)
    else
      var application := portMapping[0].value;
      if application == "" then BuildFrom(portMapping[1..], world, acc)
      else
        var id := ProcessIdByName(world, application);
        if id == -1 then Stopped(acc, application)
        else if application in acc then DuplicateApplication(application)
        else BuildFrom(portMapping[1..], world, acc[application := id])
  }

  /** Every entry maps a non-empty application to the id the lookup by name finds for it. */
  ghost predicate Resolved(mapping: map<string, int>, world: seq<ProcessInfo>)
  {
    forall a :: a in mapping ==> a != "" && mapping[a] == ProcessIdByName(world, a) && mapping[a] != -1
  }

  lemma ResolvedAdd(mapping: map<string, int>, world: seq<ProcessInfo>, application: string)
    requires Resolved(mapping, world) && application != "" && ProcessIdByName(world, application) != -1
    ensures Resolved(mapping[application := ProcessIdByName(world, application)], world)
  {
  }

  /** Applications of the non-empty values among `portMapping`. */
  ghost function ValueSet(portMapping: seq<Setting>): set<string>
  {
    set i | 0 <= i < |portMapping| && portMapping[i].value != "" :: portMapping[i].value
  }

  lemma ValueSetCons(portMapping: seq<Setting>)
    requires portMapping != []
    ensures ValueSet(portMapping)
         == ValueSet(portMapping[1..]) + (if portMapping[0].value == "" then {} else {portMapping[0].value})
  {
    var head := if portMapping[0].value == "" then {} else {portMapping[0].value};
    forall a | a in ValueSet(portMapping)
      ensures a in ValueSet(portMapping[1..]) + head
    {
      var i :| 0 <= i < |portMapping| && portMapping[i].value != "" && portMapping[i].value == a;
      if i > 0 {
        assert portMapping[1..][i - 1] == portMapping[i];
      }
    }
    forall a | a in ValueSet(portMapping[1..])
      ensures a in ValueSet(portMapping)
    {
      var i :| 0 <= i < |portMapping[1..]| && portMapping[1..][i].value != "" && portMapping[1..][i].value == a;
      assert portMapping[i + 1] == portMapping[1..][i];
    }
  }

  /** Construction only ever adds resolved entries: an application and the id found for it. */
  lemma {:induction false} BuildKeepsResolved(portMapping: seq<Setting>, world: seq<ProcessInfo>, acc: map<string, int>)
    requires Resolved(acc, world)
    ensures var r := BuildFrom(portMapping, world, acc);
            r.Complete? || r.Stopped? ==> Resolved(r.mapping, world)
    decreases |portMapping|
  {
    if portMapping != [] {
      var application := portMapping[0].value;
      if application == "" {
        BuildKeepsResolved(portMapping[1..], world, acc);
      } else if ProcessIdByName(world, application) != -1 && application !in acc {
        ResolvedAdd(acc, world, application);
        BuildKeepsResolved(portMapping[1..], world, acc[application := ProcessIdByName(world, application)]);
      }
    }
  }

  /** A complete build holds exactly the applications named by the port mapping. */
  lemma {:induction false} BuildCompleteKeys(portMapping: seq<Setting>, world: seq<ProcessInfo>, acc: map<string, int>)
    ensures var r := BuildFrom(portMapping, world, acc);
            r.Complete? ==> r.mapping.Keys == acc.Keys + ValueSet(portMapping)
    decreases |portMapping|
  {
    if portMapping != [] {
      var application := portMapping[0].value;
      ValueSetCons(portMapping);
      if application == "" {
        BuildCompleteKeys(portMapping[1..], world, acc);
      } else if ProcessIdByName(world, application) != -1 && application !in acc {
        BuildCompleteKeys(portMapping[1..], world, acc[application := ProcessIdByName(world, application)]);
      }
    }
  }

  /**
    Construction stops early at an application of the port mapping that no
    process matches, and throws at one of its applications seen twice.
  */
  lemma {:induction false} BuildFailures(portMapping: seq<Setting>, world: seq<ProcessInfo>, acc: map<string, int>)
    ensures var r := BuildFrom(portMapping, world, acc);
            && (r.Stopped? ==> r.at in ValueSet(portMapping) && ProcessIdByName(world, r.at) == -1)
            && (r.DuplicateApplication? ==> r.application in ValueSet(portMapping) && r.application != "")
    decreases |portMapping|
  {
    if portMapping != [] {
      var application := portMapping[0].value;
      ValueSetCons(portMapping);
      if application == "" {
        BuildFailures(portMapping[1..], world, acc);
      } else if ProcessIdByName(world, application) != -1 && application !in acc {
        BuildFailures(portMapping[1..], world, acc[application := ProcessIdByName(world, application)]);
      }
    }
  }

  /** Every non-empty application among `portMapping` has a process. */
  ghost predicate AllResolve(portMapping: seq<Setting>, world: seq<ProcessInfo>)
  {
    forall j :: 0 <= j < |portMapping| && portMapping[j].value != "" ==> ProcessIdByName(world, portMapping[j].value) != -1
  }

  /** No non-empty application appears twice among `portMapping`. */
  ghost predicate Distinct(portMapping: seq<Setting>)
  {
    forall i, j :: 0 <= i < j < |portMapping| && portMapping[i].value != "" ==> portMapping[i].value != portMapping[j].value
  }

  /** How the prefixes of `portMapping` and of its tail relate. */
  lemma PrefixOfTail(portMapping: seq<Setting>, world: seq<ProcessInfo>, k: nat)
    requires k < |portMapping|
    ensures portMapping[..k + 1][1..] == portMapping[1..][..k]
    ensures ValueSet(portMapping[..k + 1])
         == ValueSet(portMapping[1..][..k]) + (if portMapping[0].value == "" then {} else {portMapping[0].value})
    ensures AllResolve(portMapping[..k + 1], world)
        <==> (portMapping[0].value != "" ==> ProcessIdByName(world, portMapping[0].value) != -1)
             && AllResolve(portMapping[1..][..k], world)
  {
    var prefix := portMapping[..k + 1];
    assert prefix[1..] == portMapping[1..][..k];
    ValueSetCons(prefix);
    if AllResolve(portMapping[1..][..k], world) && (portMapping[0].value != "" ==> ProcessIdByName(world, portMapping[0].value) != -1) {
      forall j | 0 <= j < |prefix| && prefix[j].value != ""
        ensures ProcessIdByName(world, prefix[j].value) != -1
      {
        if j > 0 {
          assert prefix[j] == portMapping[1..][..k][j - 1];
        }
      }
    }
    if AllResolve(prefix, world) {
      forall j | 0 <= j < k && portMapping[1..][..k][j].value != ""
        ensures ProcessIdByName(world, portMapping[1..][..k][j].value) != -1
      {
        assert portMapping[1..][..k][j] == prefix[j + 1];
      }
    }
  }

  /**
    Position `k` is where construction from `acc` stopped with `r`: the
    application there has no process, every non-empty application before it
    has one, and `r`'s mapping holds exactly those earlier applications.
  */
  ghost predicate StoppedAt(portMapping: seq<Setting>, world: seq<ProcessInfo>, acc: map<string, int>, r: LegacyBuild, k: int)
    requires r.Stopped?
  {
    && 0 <= k < |portMapping| && portMapping[k].value == r.at
    && r.at != "" && ProcessIdByName(world, r.at) == -1
    && AllResolve(portMapping[..k], world)
    && r.mapping.Keys == acc.Keys + ValueSet(portMapping[..k])
  }

  /** A stop position in the tail, reached after the head was skipped or added, is one in the whole. */
  lemma StoppedAtShift(portMapping: seq<Setting>, world: seq<ProcessInfo>, acc: map<string, int>, r: LegacyBuild, k: nat)
    requires portMapping != [] && r.Stopped?
    requires portMapping[0].value != "" ==> ProcessIdByName(world, portMapping[0].value) != -1
    requires StoppedAt(portMapping[1..], world,
                       if portMapping[0].value == "" then acc
                       else acc[portMapping[0].value := ProcessIdByName(world, portMapping[0].value)], r, k)
    ensures StoppedAt(portMapping, world, acc, r, k + 1)
  {
    PrefixOfTail(portMapping, world, k);
    assert portMapping[k + 1] == portMapping[1..][k];
  }

  /**
    Construction stops at the FIRST application that no process matches: every
    non-empty application before it has a process, and the mapping left holds
    exactly those earlier applications (besides `acc`).
  */
  lemma {:induction false} BuildStopsAtFirst(portMapping: seq<Setting>, world: seq<ProcessInfo>, acc: map<string, int>)
    ensures var r := BuildFrom(portMapping, world, acc);
            r.Stopped? ==> exists k :: StoppedAt(portMapping, world, acc, r, k)
    decreases |portMapping|
  {
    var r := BuildFrom(portMapping, world, acc);
    if portMapping != [] && r.Stopped? {
      var application := portMapping[0].value;
      var id := ProcessIdByName(world, application);
      if application != "" && id == -1 {
        assert portMapping[..0] == [];
        assert ValueSet(portMapping[..0]) == {};
        assert StoppedAt(portMapping, world, acc, r, 0);
      } else {
        var acc' := if application == "" then acc else acc[application := id];
        BuildStopsAtFirst(portMapping[1..], world, acc');
        var k :| StoppedAt(portMapping[1..], world, acc', r, k);
        StoppedAtShift(portMapping, world, acc, r, k);
      }
    }
  }

  lemma AllResolveCons(portMapping: seq<Setting>, world: seq<ProcessInfo>)
    requires portMapping != []
    ensures AllResolve(portMapping, world)
        <==> (portMapping[0].value != "" ==> ProcessIdByName(world, portMapping[0].value) != -1)
             && AllResolve(portMapping[1..], world)
  {
    assert forall j :: 0 < j < |portMapping| ==> portMapping[j] == portMapping[1..][j - 1];
  }

  lemma DistinctCons(portMapping: seq<Setting>)
    requires portMapping != []
    ensures Distinct(portMapping)
        <==> (portMapping[0].value != "" ==> portMapping[0].value !in ValueSet(portMapping[1..]))
             && Distinct(portMapping[1..])
  {
    var application := portMapping[0].value;
    var tail := portMapping[1..];
    if Distinct(portMapping) && application != "" {
      forall a | a in ValueSet(tail)
        ensures a != application
      {
        var j :| 0 <= j < |tail| && tail[j].value != "" && tail[j].value == a;
        assert portMapping[j + 1] == tail[j];
      }
    }
    if Distinct(portMapping) {
      forall i, j | 0 <= i < j < |tail| && tail[i].value != ""
        ensures tail[i].value != tail[j].value
      {
        assert portMapping[i + 1] == tail[i] && portMapping[j + 1] == tail[j];
      }
    }
    if Distinct(tail) && (application != "" ==> application !in ValueSet(tail)) {
      forall i, j | 0 <= i < j < |portMapping| && portMapping[i].value != ""
        ensures portMapping[i].value != portMapping[j].value
      {
        assert portMapping[j] == tail[j - 1];
        if i == 0 {
          assert portMapping[j].value == application ==> application in ValueSet(tail);
        } else {
          assert portMapping[i] == tail[i - 1];
        }
      }
    }
  }

  /**
    Construction completes exactly when every non-empty application has a
    process, none appears twice, and none is already in `acc`.
  */
  lemma {:induction false} BuildCompleteIff(portMapping: seq<Setting>, world: seq<ProcessInfo>, acc: map<string, int>)
    ensures BuildFrom(portMapping, world, acc).Complete?
        <==> AllResolve(portMapping, world) && Distinct(portMapping) && acc.Keys !! ValueSet(portMapping)
    decreases |portMapping|
  {
    if portMapping == [] {
      assert ValueSet(portMapping) == {};
    } else {
      var application := portMapping[0].value;
      var id := ProcessIdByName(world, application);
      ValueSetCons(portMapping);
      AllResolveCons(portMapping, world);
      DistinctCons(portMapping);
      BuildCompleteIff(portMapping[1..], world, if application == "" then acc else acc[application := id]);
    }
  }

  /** The constructor's loop over the port mapping. */
  method BuildProcessMapping(portMapping: seq<Setting>, world: seq<ProcessInfo>) returns (r: LegacyBuild)
    ensures r == BuildFrom(portMapping, world, map[])
  {
    var processMapping: map<string, int> := map[];
    for i := 0 to |portMapping|
      invariant BuildFrom(portMapping, world, map[]) == BuildFrom(portMapping[i..], world, processMapping)
    {
      assert portMapping[i..][1..] == portMapping[i + 1..];
      var application := portMapping[i].value;
      if application == "" {
        continue;
      }
      var processId := GetProcessIdByName(world, application);
      if processId == -1 {
        return Stopped(processMapping, application);
      }
      if application in processMapping {
        return DuplicateApplication(application);
      }
      processMapping := processMapping[application := processId];
    }
    assert portMapping[|portMapping|..] == [];
    return Complete(processMapping);
  }

  // ---------------------------------------------------------------------------
  // Reading lines

  const BASE_PORT_NAME_PREFIX: string := "Port_"

  /** `string.Format("Port_{0}", channel)`. */
  function PortName(channel: string): (r: string)
    ensures |r| == |BASE_PORT_NAME_PREFIX| + |channel|
    ensures r[..|BASE_PORT_NAME_PREFIX|] == BASE_PORT_NAME_PREFIX && r[|BASE_PORT_NAME_PREFIX|..] == channel
  {
    BASE_PORT_NAME_PREFIX + channel
  }

  datatype LegacyRejection = FieldCount | UnknownPort | BadVolume

  datatype Request = Request(application: string, volume: real)

  /**
    Decoding a line: two fields, a "Port_<channel>" key present (its value may be
    empty), a volume that parses; the checks run in this order.
  */
  function Decode(value: string, portMapping: seq<Setting>, parse: string -> Option<real>): (r: Result<Request, LegacyRejection>)
    ensures r == Err(FieldCount) <==> Count(value, ':') != 1
    ensures r == Err(UnknownPort) <==>
              |Split(value, ':')| == 2 && Lookup(portMapping, PortName(Split(value, ':')[0])).None?
    ensures r == Err(BadVolume) <==>
              && |Split(value, ':')| == 2 && Lookup(portMapping, PortName(Split(value, ':')[0])).Some?
              && parse(Split(value, ':')[1]).None?
    ensures r.Ok? <==>
              && |Split(value, ':')| == 2 && Lookup(portMapping, PortName(Split(value, ':')[0])).Some?
              && parse(Split(value, ':')[1]).Some?
    ensures r.Ok? ==>
              && |Split(value, ':')| == 2
              && Lookup(portMapping, PortName(Split(value, ':')[0])) == Some(r.value.application)
              && parse(Split(value, ':')[1]) == Some(r.value.volume)
  {
    SplitCount(value, ':');
    var values := Split(value, ':');
    if |values| != 2 then Err(FieldCount)
    else
      match Lookup(portMapping, PortName(values[0]))
      case None => Err(UnknownPort)
      case Some(application) =>
        match parse(values[1])
        case None => Err(BadVolume)
        case Some(volume) => Ok(Request(application, volume))
  }

  datatype LegacyOutcome =
    | Blank                               // empty line, skipped
    | Rejected(reason: LegacyRejection)   // malformed line, skipped
    | MissingApplication(application: string)  // `processMapping[application]` throws KeyNotFoundException
    | Unresolved(pid: int)                // cached process gone and no replacement: line skipped
    | SetApplicationVolume(pid: int, volume: real)  // the one call made for the line

  datatype LegacyEffect = LegacyEffect(outcome: LegacyOutcome, mapping: map<string, int>)

  /**
    The effect of one line on the outcome and the process mapping. A line never
    adds or removes an entry, and changes the mapping only when it makes a call.
  */
  function LegacyLineEffect(portMapping: seq<Setting>, mapping: map<string, int>, line: string,
                            world: seq<ProcessInfo>, parse: string -> Option<real>): (r: LegacyEffect)
    ensures r.mapping.Keys == mapping.Keys
    ensures !r.outcome.SetApplicationVolume? ==> r.mapping == mapping
  {
    if line == "" then LegacyEffect(Blank, mapping)
    else
      match Decode(line, portMapping, parse)
      case Err(e) => LegacyEffect(Rejected(e), mapping)
      case Ok(request) =>
        if request.application !in mapping then LegacyEffect(MissingApplication(request.application), mapping)
        else
          var pid := mapping[request.application];
          if Running(world, pid) then LegacyEffect(SetApplicationVolume(pid, request.volume), mapping)
          else
            var renewed := ProcessIdByName(world, request.application);
            if renewed == -1 then LegacyEffect(Unresolved(pid), mapping)
            else LegacyEffect(SetApplicationVolume(renewed, request.volume), mapping[request.application := renewed])
  }

  /**
    The volume is only ever set for a running process, the one the mapping holds
    for the line's application afterwards, with the parsed volume unscaled; the
    mapping changes at most at that application, and only to a resolved id.
  */
  lemma LegacyCallTargetsRunningProcess(portMapping: seq<Setting>, mapping: map<string, int>, line: string,
                                        world: seq<ProcessInfo>, parse: string -> Option<real>)
    requires LegacyLineEffect(portMapping, mapping, line, world, parse).outcome.SetApplicationVolume?
    ensures var e := LegacyLineEffect(portMapping, mapping, line, world, parse);
            var request := Decode(line, portMapping, parse);
            && request.Ok?
            && Running(world, e.outcome.pid)
            && request.value.application in e.mapping
            && e.mapping == mapping[request.value.application := e.outcome.pid]
            && e.outcome.volume == request.value.volume
            && (e.mapping != mapping ==> e.outcome.pid == ProcessIdByName(world, request.value.application))
  {
  }

  /**
    How a line ends, case by case: blank, rejected by the decoder, throwing on an
    application missing from the mapping, or, for a mapped application, a call
    with the cached id while its process runs; otherwise the id is looked up by
    name again, and -1 drops the line while any other id is stored and called.
  */
  lemma LegacyLineCases(portMapping: seq<Setting>, mapping: map<string, int>, line: string,
                        world: seq<ProcessInfo>, parse: string -> Option<real>)
    ensures var e := LegacyLineEffect(portMapping, mapping, line, world, parse);
            var request := Decode(line, portMapping, parse);
            && (line == "" ==> e == LegacyEffect(Blank, mapping))
            && (line != "" && request.Err? ==> e == LegacyEffect(Rejected(request.error), mapping))
            && (line != "" && request.Ok? && request.value.application !in mapping ==>
                  e == LegacyEffect(MissingApplication(request.value.application), mapping))
            && (line != "" && request.Ok? && request.value.application in mapping ==>
                  var app := request.value.application;
                  var cached := mapping[app];
                  var renewed := ProcessIdByName(world, app);
                  && (Running(world, cached) ==>
                        e == LegacyEffect(SetApplicationVolume(cached, request.value.volume), mapping))
                  && (!Running(world, cached) && renewed == -1 ==>
                        e == LegacyEffect(Unresolved(cached), mapping))
                  && (!Running(world, cached) && renewed != -1 ==>
                        && Running(world, renewed)
                        && e == LegacyEffect(SetApplicationVolume(renewed, request.value.volume), mapping[app := renewed])))
  {
  }

  /**
    A port whose configured application is empty passes decoding, but the mapping
    built at construction never holds the empty name, so such a line throws.
  */
  lemma EmptyApplicationThrows(portMapping: seq<Setting>, world: seq<ProcessInfo>, channel: string, text: string,
                               parse: string -> Option<real>, volume: real)
    requires BuildFrom(portMapping, world, map[]).Complete?
    requires ':' !in channel && ':' !in text
    requires Lookup(portMapping, PortName(channel)) == Some("")
    requires parse(text) == Some(volume)
    ensures LegacyLineEffect(portMapping, BuildFrom(portMapping, world, map[]).mapping, channel + ":" + text, world, parse)
         == LegacyEffect(MissingApplication(""), BuildFrom(portMapping, world, map[]).mapping)
  {
    BuildKeepsResolved(portMapping, world, map[]);
    SplitTwoFields(channel, text, ':');
    SplitCount(channel + ":" + text, ':');
  }

  datatype LegacyRun = LegacyRun(outcomes: seq<LegacyOutcome>, mapping: map<string, int>)

  /** One line from the port, with the process table as it stands when the line is handled. */
  datatype LegacyReading = LegacyReading(line: string, world: seq<ProcessInfo>)

  /** Lines handled in order until `processMapping[application]` throws. */
  function LegacyRunLines(portMapping: seq<Setting>, mapping: map<string, int>, readings: seq<LegacyReading>,
                          parse: string -> Option<real>): LegacyRun
    decreases |readings|
  {
    if readings == [] then LegacyRun([], mapping)
    else
      var e := LegacyLineEffect(portMapping, mapping, readings[0].line, readings[0].world, parse);
      if e.outcome.MissingApplication? then LegacyRun([e.outcome], e.mapping)
      else
        var rest := LegacyRunLines(portMapping, e.mapping, readings[1..], parse);
        LegacyRun([e.outcome] + rest.outcomes, rest.mapping)
  }

  /** Every entry maps a non-empty application to a process id (never the -1 of a failed lookup). */
  ghost predicate ValidEntries(mapping: map<string, int>)
  {
    forall a :: a in mapping ==> a != "" && mapping[a] >= 0
  }

  /**
    Over a run whose process table changes between lines, each line makes at
    most one volume call, every call targets a process running when its line is
    handled, and a mapping of valid entries stays valid.
  */
  lemma {:induction false} LegacyRunCallsRunning(portMapping: seq<Setting>, mapping: map<string, int>,
                                                 readings: seq<LegacyReading>, parse: string -> Option<real>)
    requires ValidEntries(mapping)
    ensures var r := LegacyRunLines(portMapping, mapping, readings, parse);
            && ValidEntries(r.mapping)
            && |r.outcomes| <= |readings|
            && forall i :: 0 <= i < |r.outcomes| && r.outcomes[i].SetApplicationVolume? ==>
                 Running(readings[i].world, r.outcomes[i].pid)
    decreases |readings|
  {
    if readings != [] {
      var e := LegacyLineEffect(portMapping, mapping, readings[0].line, readings[0].world, parse);
      if e.outcome.SetApplicationVolume? {
        LegacyCallTargetsRunningProcess(portMapping, mapping, readings[0].line, readings[0].world, parse);
      }
      if !e.outcome.MissingApplication? {
        var rest := LegacyRunLines(portMapping, e.mapping, readings[1..], parse);
        LegacyRunCallsRunning(portMapping, e.mapping, readings[1..], parse);
        var outcomes := [e.outcome] + rest.outcomes;
        forall i | 0 < i < |outcomes| && outcomes[i].SetApplicationVolume?
          ensures Running(readings[i].world, outcomes[i].pid)
        {
          assert outcomes[i] == rest.outcomes[i - 1] && readings[i] == readings[1..][i - 1];
        }
      }
    }
  }

  /** The mapping the constructor builds, when it does not throw, has valid entries, so the run lemma applies to it. */
  lemma BuiltEntriesValid(portMapping: seq<Setting>, world: seq<ProcessInfo>)
    ensures var r := BuildFrom(portMapping, world, map[]);
            !r.DuplicateApplication? ==> ValidEntries(r.mapping)
  {
    BuildKeepsResolved(portMapping, world, map[]);
    var r := BuildFrom(portMapping, world, map[]);
    if !r.DuplicateApplication? {
      forall a | a in r.mapping
        ensures a != "" && r.mapping[a] >= 0
      {
        assert r.mapping[a] == ProcessIdByName(world, a) != -1;
      }
    }
  }

  /** The console engine: its port, retry budget, port mapping and process mapping. */
  class LegacyVolMixer {
    const port: SerialPort
    const maxRetries: int
    const portMapping: seq<Setting>
    var processMapping: map<string, int>

    constructor (port: SerialPort, maxRetries: int, portMapping: seq<Setting>, processMapping: map<string, int>)
      ensures this.port == port && this.maxRetries == maxRetries
      ensures this.portMapping == portMapping && this.processMapping == processMapping
    {
      this.port := port;
      this.maxRetries := maxRetries;
      this.portMapping := portMapping;
      this.processMapping := processMapping;
    }

    /**
      `new VolMixer(portName, baudRate, maxRetries, portMapping)`: None when the
      constructor throws on a duplicate application; otherwise an engine with a
      closed port and the (possibly partial) mapping the constructor built.
    */
    static method Create(portName: string, baudRate: int, maxRetries: int, portMapping: seq<Setting>,
                         world: seq<ProcessInfo>, opens: nat -> bool) returns (r: Option<LegacyVolMixer>)
      ensures r.None? <==> BuildFrom(portMapping, world, map[]).DuplicateApplication?
      ensures r.Some? ==>
                && fresh(r.value) && fresh(r.value.port)
                && r.value.processMapping == BuildFrom(portMapping, world, map[]).mapping
                && r.value.portMapping == portMapping && r.value.maxRetries == maxRetries
                && r.value.port.portName == portName && r.value.port.baudRate == baudRate
                && r.value.port.opens == opens && !r.value.port.isOpen && r.value.port.attempts == 0
    {
      var built := BuildProcessMapping(portMapping, world);
      if built.DuplicateApplication? {
        return None;
      }
      var port := new SerialPort(portName, baudRate, opens);
      var engine := new LegacyVolMixer(port, maxRetries, portMapping, built.mapping);
      return Some(engine);
    }

    /** The opening loop at the start of `Run`: true when the port ends up open. */
    method OpenPort() returns (ok: bool)
      modifies port
      ensures ok == port.isOpen
      ensures old(port.isOpen) ==> ok && port.attempts == old(port.attempts)
      ensures !old(port.isOpen) ==>
                && port.attempts == old(port.attempts) + AttemptsMade(port.opens, old(port.attempts), maxRetries)
                && ok == OpensWithin(port.opens, old(port.attempts), maxRetries)
    {
      if !port.isOpen {
        var start := port.attempts;
        var tryCount := 1;
        while !port.isOpen && tryCount <= maxRetries
          invariant tryCount >= 1
          invariant !port.isOpen ==>
                      && port.attempts == start + tryCount - 1
                      && AttemptsMade(port.opens, start, maxRetries)
                         == tryCount - 1 + AttemptsMade(port.opens, port.attempts, maxRetries - tryCount + 1)
                      && OpensWithin(port.opens, start, maxRetries)
                         == OpensWithin(port.opens, port.attempts, maxRetries - tryCount + 1)
          invariant port.isOpen ==>
                      && port.attempts == start + tryCount
                      && AttemptsMade(port.opens, start, maxRetries) == tryCount
                      && OpensWithin(port.opens, start, maxRetries)
          decreases if port.isOpen then 0 else maxRetries - tryCount + 1
        {
          var success := port.Open();
          if !success {
            tryCount := tryCount + 1;
          }
        }
      }
      ok := port.isOpen;
    }

    /** One line read in `Run`. */
    method HandleLine(line: string, world: seq<ProcessInfo>, parse: string -> Option<real>) returns (outcome: LegacyOutcome)
      modifies this`processMapping
      ensures LegacyEffect(outcome, processMapping) == LegacyLineEffect(portMapping, old(processMapping), line, world, parse)
    {
      if line == "" {
        return Blank;
      }
      var request := Decode(line, portMapping, parse);
      if request.Err? {
        return Rejected(request.error);
      }
      var application := request.value.application;
      if application !in processMapping {
        return MissingApplication(application);
      }
      var processId := processMapping[application];
      if !Running(world, processId) {
        var newProcessId := GetProcessIdByName(world, application);
        if newProcessId == -1 {
          return Unresolved(processId);
        }
        processId := newProcessId;
        processMapping := processMapping[application := newProcessId];
      }
      outcome := SetApplicationVolume(processId, request.value.volume);
    }

    /**
      `Run` over the lines the port delivers, after the opening loop: the port is
      opened as `OpenPort` does, nothing is read when it stays closed, and
      otherwise the outcomes and final mapping are those of `LegacyRunLines`.
    */
    method Run(readings: seq<LegacyReading>, parse: string -> Option<real>)
      returns (portOpen: bool, outcomes: seq<LegacyOutcome>)
      modifies port, this`processMapping
      ensures portOpen == port.isOpen
      ensures old(port.isOpen) ==> portOpen && port.attempts == old(port.attempts)
      ensures !old(port.isOpen) ==>
                && port.attempts == old(port.attempts) + AttemptsMade(port.opens, old(port.attempts), maxRetries)
                && portOpen == OpensWithin(port.opens, old(port.attempts), maxRetries)
      ensures !portOpen ==> outcomes == [] && processMapping == old(processMapping)
      ensures portOpen ==>
                LegacyRun(outcomes, processMapping) == LegacyRunLines(portMapping, old(processMapping), readings, parse)
    {
      portOpen := OpenPort();
      outcomes := [];
      if !portOpen {
        return;
      }
      ghost var attempts := port.attempts;
      var i := 0;
      while i < |readings|
        invariant 0 <= i <= |readings|
        invariant port.isOpen && port.attempts == attempts
        invariant LegacyRunLines(portMapping, old(processMapping), readings, parse)
               == Then(outcomes, LegacyRunLines(portMapping, processMapping, readings[i..], parse))
      {
        var outcome := HandleLine(readings[i].line, readings[i].world, parse);
        if outcome.MissingApplication? {
          ThenSnoc(outcomes, outcome, LegacyRun([], processMapping));
          outcomes := outcomes + [outcome];
          return;
        }
        assert readings[i..][1..] == readings[i + 1..];
        ThenSnoc(outcomes, outcome, LegacyRunLines(portMapping, processMapping, readings[i + 1..], parse));
        outcomes := outcomes + [outcome];
        i := i + 1;
      }
      assert Then(outcomes, LegacyRun([], processMapping)) == LegacyRun(outcomes, processMapping);
    }
  }

  /** The outcomes already produced, followed by the rest of the run. */
  function Then(done: seq<LegacyOutcome>, rest: LegacyRun): LegacyRun
  {
    LegacyRun(done + rest.outcomes, rest.mapping)
  }

  lemma ThenSnoc(done: seq<LegacyOutcome>, o: LegacyOutcome, rest: LegacyRun)
    ensures Then(done, LegacyRun([o] + rest.outcomes, rest.mapping)) == Then(done + [o], rest)
  {
    assert done + ([o] + rest.outcomes) == (done + [o]) + rest.outcomes;
  }
}
