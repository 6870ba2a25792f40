/** The per-installation salt
    (crates/ackplane-bridge/src/lib.rs:126-175): processes starting for the
    first time together, each reading, generating, publishing without
    overwriting and, if beaten to it, reading again. */
module BridgeSalt {
  import opened Common

  datatype SaltError = EmptySalt | Unavailable

  type Salt = s: bytes | |s| == 32 witness seq(32, _ => 0)

  /** `read_salt` on an existing file. */
  function ReadSalt(content: bytes): Result<bytes, SaltError> {
    if content == [] then Err(EmptySalt) else Ok(content)
  }

  // --------------------------------------------------------- one process

  class SaltFile {
    var content: Option<bytes>

    constructor (content: Option<bytes>)
      ensures this.content == content
    {
      this.content := content;
    }

    /** `persist_noclobber`: the whole file appears at once, or not at all. */
    method PublishNew(salt: bytes) returns (published: bool)
      modifies this
      ensures published <==> old(content) == None
      ensures content == if published then Some(salt) else old(content)
    {
      published := content.None?;
      if published { content := Some(salt); }
    }

    /** One caller; another process may have published `meanwhile` after the
        first read. */
    method LoadOrGenerate(salt: Salt, meanwhile: Option<bytes>) returns (r: Result<bytes, SaltError>)
      modifies this
      ensures old(content).Some? ==> content == old(content)
      ensures old(content).None? ==> content == Some(if meanwhile.Some? then meanwhile.value else salt)
      ensures content.Some? && r == ReadSalt(content.value)
    {
      if content.Some? { return ReadSalt(content.value); }
      if meanwhile.Some? {
        var first := PublishNew(meanwhile.value);
      }
      var published := PublishNew(salt);
      if published { return Ok(salt); }
      return ReadSalt(content.value);
    }
  }

  // -------------------------------------------------------- many processes

  datatype Pc = Reading | Publishing(salt: Salt) | Rereading | Done(result: Result<bytes, SaltError>)

  datatype Call = Call(pc: Pc, published: bool)

  datatype World = World(file: Option<bytes>, calls: map<nat, Call>)

  /** `salt` is what this process would draw. Everything between the first read
      and the publication touches only its own temporary file. */
  datatype Event = Begin(call: nat) | Advance(call: nat, fault: Fault, salt: Salt)

  function With(w: World, n: nat, c: Call): World { w.(calls := w.calls[n := c]) }

  function AdvanceCall(w: World, n: nat, fault: Fault, salt: Salt): World
    requires n in w.calls
  {
    var c := w.calls[n];
    if c.pc.Done? then w
    else if fault == Failed then With(w, n, c.(pc := Done(Err(Unavailable))))
    else match c.pc
      case Reading =>
        With(w, n, c.(pc := if w.file.Some? then Done(ReadSalt(w.file.value)) else Publishing(salt)))
      case Publishing(own) =>
        if w.file.Some? then With(w, n, c.(pc := Rereading))
        else With(w.(file := Some(own)), n,
                  Call(Done(if fault == AckLost then Err(Unavailable) else Ok(own)), true))
      case Rereading =>
        With(w, n, c.(pc := Done(if w.file.Some? then ReadSalt(w.file.value) else Err(Unavailable))))
      case Done(_) => w
  }

  function Step(w: World, e: Event): World {
    match e
    case Begin(n) => if n in w.calls then w else With(w, n, Call(Reading, false))
    case Advance(n, fault, salt) => if n in w.calls then AdvanceCall(w, n, fault, salt) else w
  }

  function Run(w: World, events: seq<Event>): World
    decreases |events|
  {
    if events == [] then w else Run(Step(w, events[0]), events[1..])
  }

  /** The installation as found: no file, or some file. */
  function Installed(file: Option<bytes>): World { World(file, map[]) }

  // ----------------------------------------------------------- the invariant

  predicate CallOk(w: World, found: Option<bytes>, c: Call) {
    && (c.published ==> found.None? && w.file.Some? && c.pc.Done?)
    && (c.pc.Rereading? ==> w.file.Some?)
    && (c.pc.Done? && c.pc.result.Ok? ==> w.file == Some(c.pc.result.value) && c.pc.result.value != [])
  }

  predicate WorldOk(w: World, found: Option<bytes>) {
    && (found.Some? ==> w.file == found)
    && (forall n :: n in w.calls ==> CallOk(w, found, w.calls[n]))
    && (forall m, n :: m in w.calls && n in w.calls && w.calls[m].published && w.calls[n].published ==> m == n)
    && (found.None? && w.file.Some? ==> |w.file.value| == 32 && exists n :: n in w.calls && w.calls[n].published)
  }

  lemma StepKeeps(w: World, found: Option<bytes>, e: Event)
    requires WorldOk(w, found)
    ensures WorldOk(Step(w, e), found)
    ensures w.file.Some? ==> Step(w, e).file == w.file
  {
    var w' := Step(w, e);
    forall n | n in w'.calls ensures CallOk(w', found, w'.calls[n]) {
      if n in w.calls { assert CallOk(w, found, w.calls[n]); }
    }
    if found.None? && w'.file.Some? {
      if w.file.Some? {
        var n :| n in w.calls && w.calls[n].published;
        assert CallOk(w, found, w.calls[n]);
        assert n in w'.calls && w'.calls[n].published;
      } else {
        assert w'.calls[e.call].published;
      }
    }
  }

  lemma {:induction false} RunKeeps(w: World, found: Option<bytes>, events: seq<Event>)
    requires WorldOk(w, found)
    ensures WorldOk(Run(w, events), found)
    ensures w.file.Some? ==> Run(w, events).file == w.file
    decreases |events|
  {
    if events != [] {
      StepKeeps(w, found, events[0]);
      RunKeeps(Step(w, events[0]), found, events[1..]);
    }
  }

  predicate Succeeded(w: World, n: nat) { n in w.calls && w.calls[n].pc.Done? && w.calls[n].pc.result.Ok? }

  function Obtained(w: World, n: nat): bytes
    requires Succeeded(w, n)
  {
    w.calls[n].pc.result.value
  }

  /** In every interleaving every process that succeeds, at whatever moment,
      obtains the same non-empty salt, which is what the file holds from then
      on. */
  lemma EveryoneAgrees(found: Option<bytes>, events: seq<Event>, later: seq<Event>, m: nat, n: nat)
    requires Succeeded(Run(Installed(found), events), m)
    requires Succeeded(Run(Run(Installed(found), events), later), n)
    ensures var w := Run(Installed(found), events);
            var w' := Run(w, later);
            Obtained(w, m) == Obtained(w', n) && Obtained(w', n) != [] && w'.file == Some(Obtained(w, m))
  {
    var w := Run(Installed(found), events);
    RunKeeps(Installed(found), found, events);
    RunKeeps(w, found, later);
    var w' := Run(w, later);
    assert CallOk(w, found, w.calls[m]) && CallOk(w', found, w'.calls[n]);
  }

  /** A file that was there is never replaced, even if it is empty; then nobody
      succeeds rather than inventing a new identity. */
  lemma ExistingFileIsKept(found: Option<bytes>, events: seq<Event>, n: nat)
    requires found.Some?
    ensures var w := Run(Installed(found), events);
            w.file == found && (found.value == [] ==> !Succeeded(w, n))
  {
    RunKeeps(Installed(found), found, events);
    var w := Run(Installed(found), events);
    if Succeeded(w, n) { assert CallOk(w, found, w.calls[n]); }
  }

  /** A new file is 32 bytes drawn by exactly one process. */
  lemma OnePublisher(events: seq<Event>, m: nat, n: nat)
    requires Run(Installed(None), events).file.Some?
    ensures var w := Run(Installed(None), events);
            && |w.file.value| == 32
            && (exists p :: p in w.calls && w.calls[p].published)
            && (m in w.calls && n in w.calls && w.calls[m].published && w.calls[n].published ==> m == n)
  {
    RunKeeps(Installed(None), None, events);
  }

  /** Without faults, three steps of its own settle any process, and it succeeds
      unless the file is empty. */
  lemma ThreeStepsSettle(w: World, found: Option<bytes>, n: nat, salt: Salt)
    requires WorldOk(w, found) && n in w.calls && w.calls[n] == Call(Reading, false)
    ensures var go := Advance(n, Fine, salt);
            var w' := Step(Step(Step(w, go), go), go);
            && n in w'.calls && w'.calls[n].pc.Done?
            && (Succeeded(w', n) <==> w.file != Some([]))
  {}
}
