// The simple specification: a map from open handles to a path and two cursors over
// immutable file contents, with the POSIX meaning of read, pread and lseek.  A handle has
// one cursor per side that can serve it: the job keeps one on the server and one in the
// client, and neither side ever learns where the other stands.
module Posix {
  import opened Files

  datatype Handle = Handle(c: nat, fd: int)

  // Why a read was left to the real call: the file is not tracked, the remote open was
  // not ready, or the request could not be sent.
  datatype Why = Untracked | NotReady | NotSent

  datatype Side = RemoteSide | LocalSide(why: Why)

  datatype File = File(path: Path, remote: nat, local: nat)

  type State = map<Handle, File>

  datatype Event =
    | Silent
    | OpenEv(h: Handle, path: Path)
    | CloseEv(h: Handle)
    | ReadEv(h: Handle, side: Side, count: nat, out: Bytes)
    | PreadEv(h: Handle, count: nat, offset: nat, out: Bytes)
    // `reached` says that the request named the client's own remote fd
    | SeekEv(h: Handle, reached: bool, off: int, whence: Whence, res: int)

  function CursorOf(f: File, side: Side): nat { if side.RemoteSide? then f.remote else f.local }

  // The event is what a conforming file system could have answered, given the cursor of
  // the side that served it.
  predicate Accepts(cfg: Config, st: State, ev: Event)
  {
    match ev
    case Silent => true
    case OpenEv(h, p) => h !in st && p in cfg.disk
    case CloseEv(h) => h in st
    case ReadEv(h, side, count, out) =>
      && h in st && st[h].path in cfg.disk
      && ReadMeaning(cfg.disk[st[h].path], CursorOf(st[h], side), count, out)
    case PreadEv(h, count, offset, out) =>
      && h in st && st[h].path in cfg.disk
      && ReadMeaning(cfg.disk[st[h].path], offset, count, out)
    case SeekEv(h, reached, off, whence, res) =>
      && h in st && st[h].path in cfg.disk
      && (reached ==> res == SeekMeaning(|cfg.disk[st[h].path]|, st[h].remote, off, whence))
  }

  // What an accepted event says of the bytes and positions handed out.
  lemma AcceptedLaws(cfg: Config, st: State, ev: Event)
    requires Accepts(cfg, st, ev)
    ensures ev.ReadEv? || ev.PreadEv? ==>
              && ev.h in st && st[ev.h].path in cfg.disk
              && var file := cfg.disk[st[ev.h].path];
              && var pos := if ev.PreadEv? then ev.offset
                            else if ev.side.RemoteSide? then st[ev.h].remote else st[ev.h].local;
              && |ev.out| <= ev.count && (ev.count > 0 && pos < |file| ==> |ev.out| > 0)
              && (|ev.out| > 0 ==>
                    pos + |ev.out| <= |file| && forall i :: 0 <= i < |ev.out| ==> ev.out[i] == file[pos + i])
    ensures ev.SeekEv? && ev.reached ==>
              && ev.h in st && st[ev.h].path in cfg.disk
              && var target := match ev.whence
                 case Set => ev.off
                 case Cur => st[ev.h].remote + ev.off
                 case End => |cfg.disk[st[ev.h].path]| + ev.off
                 case Invalid => -1;
              ev.res == if target >= 0 then target else -1
  {
    match ev
    case ReadEv(h, side, count, out) =>
      ReadLaws(cfg.disk[st[h].path], if side.RemoteSide? then st[h].remote else st[h].local, count, out);
    case PreadEv(h, count, offset, out) => ReadLaws(cfg.disk[st[h].path], offset, count, out);
    case _ =>
  }

  function Next(st: State, ev: Event): State
  {
    match ev
    case Silent => st
    case OpenEv(h, p) => st[h := File(p, 0, 0)]
    case CloseEv(h) => st - {h}
    case ReadEv(h, side, _, out) =>
      if h !in st then st
      else if side.RemoteSide? then st[h := st[h].(remote := st[h].remote + |out|)]
      else st[h := st[h].(local := st[h].local + |out|)]
    case PreadEv(_, _, _, _) => st
    case SeekEv(h, reached, _, _, res) =>
      if h in st && reached && res >= 0 then st[h := st[h].(remote := res)] else st
  }

  // ------------------------------------------------------ sequences of events

  ghost predicate AcceptsAll(cfg: Config, st: State, evs: seq<Event>)
    decreases |evs|
  {
    evs == [] || (Accepts(cfg, st, evs[0]) && AcceptsAll(cfg, Next(st, evs[0]), evs[1..]))
  }

  ghost function Final(st: State, evs: seq<Event>): State
    decreases |evs|
  {
    if evs == [] then st else Final(Next(st, evs[0]), evs[1..])
  }

  // One read(2) as the application saw it, and who served it.
  datatype Got = Got(side: Side, count: nat, out: Bytes)

  function Noted(ev: Event, h: Handle, sofar: seq<Got>): seq<Got>
  {
    match ev
    case OpenEv(i, _) => if i == h then [] else sofar
    case ReadEv(i, side, count, out) => if i == h then sofar + [Got(side, count, out)] else sofar
    case _ => sofar
  }

  // The reads of h since it was last opened, in order.
  ghost function Reads(evs: seq<Event>, h: Handle, sofar: seq<Got>): seq<Got>
    decreases |evs|
  {
    if evs == [] then sofar else Reads(evs[1..], h, Noted(evs[0], h, sofar))
  }

  function SeekNoted(ev: Event, h: Handle, sofar: bool): bool
  {
    match ev
    case OpenEv(i, _) => sofar && i != h
    case SeekEv(i, reached, _, _, _) => sofar || (i == h && reached)
    case _ => sofar
  }

  // Whether a seek has reached the fd of h since it was last opened.
  ghost function Seeked(evs: seq<Event>, h: Handle, sofar: bool): bool
    decreases |evs|
  {
    if evs == [] then sofar else Seeked(evs[1..], h, SeekNoted(evs[0], h, sofar))
  }
}
