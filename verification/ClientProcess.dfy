// The client process as code: the read, pread, open and close paths over the maps they
// share, down to the server's handlers.  The maps change as the functions of FdTables
// say, the ones the protocol steps use.
module ClientProcess {
  import opened Files
  import opened FdTables
  import opened Waiting
  import Server
  import opened ServerProcess

  // The sequence of map changes of one tracked open: fd_map, OPENING, then the outcome.
  // No answer means that the request could not be sent.
  function TrackedOpen(c: Client, fd: int, p: Path, answer: Option<int>): Client
  {
    var opening := SetOpening(Register(c, fd, p), fd);
    match answer
    case None => SetError(opening, fd)
    case Some(r) => OpenDone(opening, fd, r)
  }

  function TrackedClose(c: Client, fd: int): Client
  {
    Forget(Cleanup(Unmap(c, fd), fd), fd)
  }

  // A positive answer also takes the place of a zero that an earlier file with this fd
  // number may have left in fd_redir_map.
  function Answered(answer: Option<int>): bool { answer.Some? && answer.value > 0 }

  // Whatever the server answered, closing the fd takes back all that opening it put into
  // the maps, so the next file with this fd number starts clean.
  lemma CloseUndoesOpen(c: Client, fd: int, p: Path, answer: Option<int>)
    requires fd !in c.fdMap && fd !in c.status && (fd in c.redir ==> c.redir[fd] == 0)
    ensures var t := TrackedClose(TrackedOpen(c, fd, p, answer), fd);
            && t == c.(redir := if Answered(answer) then c.redir - {fd} else c.redir)
            && forall e :: Mapped(t, e) <==> Mapped(c, e)
  {
    if Answered(answer) {
      CloseUndoes(c, fd, p, READY, c.redir[fd := answer.value]);
      assert c.status[fd := OPENING][fd := READY] == c.status[fd := READY];
    } else {
      CloseUndoes(c, fd, p, ERROR, c.redir);
      assert c.status[fd := OPENING][fd := ERROR] == c.status[fd := ERROR];
    }
  }

  lemma CloseUndoes(c: Client, fd: int, p: Path, st: FdState, redir: map<int, int>)
    requires fd !in c.fdMap && fd !in c.status && (fd in c.redir ==> c.redir[fd] == 0)
    requires redir == c.redir || (fd in redir && redir[fd] != 0 && redir == c.redir[fd := redir[fd]])
    ensures TrackedClose(c.(fdMap := c.fdMap[fd := p], status := c.status[fd := st], redir := redir), fd)
            == c.(redir := if redir == c.redir then c.redir else c.redir - {fd})
  {
    assert c.fdMap[fd := p] - {fd} == c.fdMap;
    assert c.status[fd := st] - {fd} == c.status;
    assert redir != c.redir ==> redir - {fd} == c.redir - {fd};
  }

  // READY exactly when a positive remote fd came back, and then it is mapped; any other
  // outcome leaves the file in fd_map with ERROR, so that every read falls back.
  lemma OpenSettles(c: Client, fd: int, p: Path, answer: Option<int>)
    requires !Mapped(c, fd)
    ensures var t := TrackedOpen(c, fd, p, answer);
            && fd in t.fdMap && t.fdMap[fd] == p && fd in t.status
            && (t.status[fd] == READY <==> Answered(answer))
            && (t.status[fd] == READY <==> Mapped(t, fd))
            && t.status[fd] != OPENING
  {
  }

  datatype AccessMode = ReadOnly | WriteOnly | ReadWrite

  // hvac_track_file backs out of files opened for writing only or for appending;
  // `eligible` stands for the tests of the path.
  predicate Trackable(mode: AccessMode, append: bool, eligible: bool)
  {
    eligible && !mode.WriteOnly? && !append
  }

  // What happens around one read: the clock and the wakeups of the wait, the remote fd
  // that an open callback stores before it settles the status, and whether the request
  // can be sent.
  datatype World = World(now: Time, wakes: seq<Wakeup>, remote: int, sent: bool)

  const TIMEOUT := 5000

  // What a wait leaves of the maps: when the fd was OPENING, the status the other threads
  // gave it and, if that is READY, the remote fd they stored before.
  ghost function AfterWait(c: Client, fd: int, w: World): Client
  {
    if fd in c.status && c.status[fd] == OPENING then
      var settled := c.(status := c.status[fd := EndState(w.wakes)]);
      if WakesReady(w.wakes) then settled.(redir := settled.redir[fd := w.remote]) else settled
    else c
  }

  class HvacClient {
    // what the operating system keeps for this process
    var local: map<int, LocalFile>
    // the program's globals
    var fdMap: map<int, Path>
    var fdStateMap: map<int, FdStatus>
    var fdRedirMap: map<int, int>

    // No two fds share a status object.
    ghost predicate Valid()
      reads this
    {
      forall a, b :: a in fdStateMap && b in fdStateMap && a != b ==> fdStateMap[a] != fdStateMap[b]
    }

    ghost function View(): Client
      reads this, fdStateMap.Values
    {
      Client(local, fdMap, map fd | fd in fdStateMap :: fdStateMap[fd].state, fdRedirMap)
    }

    function StateOf(fd: int): Option<FdState>
      reads this, fdStateMap.Values
    {
      if fd in fdStateMap then Some(fdStateMap[fd].state) else None
    }

    ghost function StatusOf(fd: int): set<FdStatus>
      reads this
    {
      if fd in fdStateMap then {fdStateMap[fd]} else {}
    }

    constructor ()
      ensures Valid() && View() == Fresh
    {
      local, fdMap, fdStateMap, fdRedirMap := map[], map[], map[], map[];
    }

    // ------------------------------------------------------ the status objects

    method SetFdOpening(fd: int)
      requires Valid()
      modifies this`fdStateMap
      ensures Valid() && View() == SetOpening(old(View()), fd)
      ensures fd in fdStateMap && fresh(fdStateMap[fd]) && fdStateMap == old(fdStateMap)[fd := fdStateMap[fd]]
    {
      var status := new FdStatus();
      fdStateMap := fdStateMap[fd := status];
    }

    method SetFdReady(fd: int)
      requires Valid()
      modifies StatusOf(fd)
      ensures View() == SetReady(old(View()), fd)
    {
      if fd in fdStateMap {
        ghost var was := View().status;
        fdStateMap[fd].state := READY;
        forall e | e in fdStateMap ensures View().status[e] == was[fd := READY][e] {
          assert e != fd ==> fdStateMap[e] != fdStateMap[fd];
        }
        assert View().status == was[fd := READY];
      }
    }

    method SetFdError(fd: int)
      requires Valid()
      modifies StatusOf(fd)
      ensures View() == SetError(old(View()), fd)
    {
      if fd in fdStateMap {
        ghost var was := View().status;
        fdStateMap[fd].state := ERROR;
        forall e | e in fdStateMap ensures View().status[e] == was[fd := ERROR][e] {
          assert e != fd ==> fdStateMap[e] != fdStateMap[fd];
        }
        assert View().status == was[fd := ERROR];
      }
    }

    method CleanupFdState(fd: int)
      requires Valid()
      modifies this`fdStateMap
      ensures Valid() && View() == Cleanup(old(View()), fd)
    {
      fdStateMap := fdStateMap - {fd};
    }

    // ------------------------------------------------------------------ open

    // The open callback.
    method OpenCb(localFd: int, ret: int)
      requires Valid()
      modifies this`fdRedirMap, StatusOf(localFd)
      ensures View() == OpenDone(old(View()), localFd, ret)
    {
      if ret > 0 {
        fdRedirMap := fdRedirMap[localFd := ret];
        SetFdReady(localFd);
      } else {
        SetFdError(localFd);
      }
    }

    // Opening a file after its real open returned fd.  `server` is the one the path hashes
    // to, `ret` what open(2) gives there.  The result says whether the file counts as
    // tracked; fd_map keeps it either way.
    method TrackFile(cfg: Config, rank: nat, server: HvacServer, path: Path, mode: AccessMode, append: bool,
                     eligible: bool, fd: int, sent: bool, ret: int) returns (tracked: bool)
      requires Valid() && Server.Inv(cfg, rank, server.View())
      requires Server.Mine(cfg, rank, path) && (ret == -1 || (ret >= 0 && ret !in server.kernel))
      modifies this`fdMap, this`fdStateMap, this`fdRedirMap, server
      ensures Valid() && Server.Inv(cfg, rank, server.View())
      ensures View() == if Trackable(mode, append, eligible)
                        then TrackedOpen(old(View()), fd, path, if sent then Some(ret) else None) else old(View())
      ensures Server.Enabled(cfg, old(server.View()), Server.Open(path, ret))
      ensures server.View() == if Trackable(mode, append, eligible) && sent
                               then Server.Apply(cfg, old(server.View()), Server.Open(path, ret))
                               else old(server.View())
      ensures tracked <==> Trackable(mode, append, eligible) && sent && ret >= 0
      // files opened for writing only or for appending are none of its business
      ensures mode.WriteOnly? || append || !eligible ==>
                !tracked && View() == old(View()) && server.View() == old(server.View())
      ensures !mode.WriteOnly? && !append && eligible ==> fd in fdMap && fdMap[fd] == path
      // the mapped fd is open for this path, at its start, and reads like the original
      ensures Trackable(mode, append, eligible) && sent && ret > 0 ==>
                && fd in fdRedirMap && fdRedirMap[fd] == ret && Serves(server, path, ret)
                && server.kernel[ret].cursor == 0
                && Server.Content(cfg, server.View(), server.kernel[ret].file) == cfg.disk[path]
    {
      if !eligible || mode.WriteOnly? || append {
        return false;
      }
      fdMap := fdMap[fd := path];
      assert View() == Register(old(View()), fd, path);
      var result := GenOpenRpc(cfg, rank, server, path, fd, sent, ret);
      tracked := result >= 0;
    }

    method GenOpenRpc(cfg: Config, rank: nat, server: HvacServer, path: Path, fd: int, sent: bool, ret: int)
      returns (result: int)
      requires Valid() && Server.Inv(cfg, rank, server.View())
      requires Server.Mine(cfg, rank, path) && (ret == -1 || (ret >= 0 && ret !in server.kernel))
      modifies this`fdStateMap, this`fdRedirMap, server
      ensures Valid() && Server.Inv(cfg, rank, server.View())
      ensures View() == if sent then OpenDone(SetOpening(old(View()), fd), fd, ret)
                        else SetError(SetOpening(old(View()), fd), fd)
      ensures Server.Enabled(cfg, old(server.View()), Server.Open(path, ret))
      ensures server.View() == if sent then Server.Apply(cfg, old(server.View()), Server.Open(path, ret))
                               else old(server.View())
      ensures result == if sent then ret else -1
      ensures sent && ret > 0 ==>
                && fd in fdRedirMap && fdRedirMap[fd] == ret && Serves(server, path, ret)
                && server.kernel[ret].cursor == 0
                && Server.Content(cfg, server.View(), server.kernel[ret].file) == cfg.disk[path]
    {
      SetFdOpening(fd);
      result := -1;
      if sent {
        result := server.OpenRpcHandler(cfg, rank, path, ret);
        OpenCb(fd, result);
      } else {
        SetFdError(fd);
      }
    }

    // ------------------------------------------------------------------ read

    ghost predicate Serves(server: HvacServer, path: Path, r: int)
      reads server
    {
      r in server.kernel && r in server.fdToPath && server.fdToPath[r] == path
    }

    // What the rest of the job guarantees about this fd: the remote fd behind it, now or
    // when the wait finds it READY, is open at the server for the same path; and the wait
    // ends.
    ghost predicate Backed(cfg: Config, rank: nat, server: HvacServer, fd: int, w: World)
      reads this, fdStateMap.Values, server
    {
      && Server.Inv(cfg, rank, server.View())
      && fd in local && local[fd].path in cfg.disk
      && (fd in fdMap ==>
            && fdMap[fd] == local[fd].path
            && (Mapped(View(), fd) ==> Serves(server, fdMap[fd], fdRedirMap[fd]))
            && (fd in fdRedirMap ==> fdRedirMap[fd] >= 0))
      && (StateOf(fd) == Some(OPENING) ==>
            && (exists i :: 0 <= i < |w.wakes| && (w.wakes[i].timedOut || w.wakes[i].state != OPENING))
            && (Answer(StateOf(fd), w.wakes) ==>
                  w.remote > 0 && (fd in fdMap ==> Serves(server, fdMap[fd], w.remote))))
      && Normal(w.now) && (forall i :: 0 <= i < |w.wakes| ==> TimedWait(Deadline(w.now, TIMEOUT), w.wakes[i]))
    }

    // The remote fd of the client fd once the wait is over, 0 for none.
    ghost function RemoteFd(fd: int, w: World): int
      reads this, fdStateMap.Values
    {
      if StateOf(fd) == Some(OPENING) && Answer(StateOf(fd), w.wakes) then w.remote
      else if fd in fdRedirMap then fdRedirMap[fd] else 0
    }

    // Whether a read of this fd reaches the server.
    ghost predicate Reaches(fd: int, w: World)
      reads this, fdStateMap.Values
    {
      fd in fdMap && Answer(StateOf(fd), w.wakes) && RemoteFd(fd, w) != 0 && w.sent
    }

    // hvac_wait_fd_ready, with what the other threads do to this fd meanwhile.
    method AwaitReady(fd: int, w: World) returns (ready: bool, ghost ended: int)
      requires Valid() && Normal(w.now)
      requires forall i :: 0 <= i < |w.wakes| ==> TimedWait(Deadline(w.now, TIMEOUT), w.wakes[i])
      requires StateOf(fd) == Some(OPENING) ==>
                 exists i :: 0 <= i < |w.wakes| && (w.wakes[i].timedOut || w.wakes[i].state != OPENING)
      modifies this`fdRedirMap, StatusOf(fd)
      ensures ready == Answer(old(StateOf(fd)), w.wakes)
      // five seconds pass before it gives up
      ensures old(StateOf(fd)) == Some(OPENING) ==>
                && ended >= 0 && EndsAt(w.wakes, ended)
                && (w.wakes[ended].timedOut ==> Nanos(w.wakes[ended].at) >= Nanos(w.now) + 5 * SECOND)
      ensures View() == AfterWait(old(View()), fd, w)
      ensures fdRedirMap == if old(StateOf(fd)) == Some(OPENING) && WakesReady(w.wakes)
                            then old(fdRedirMap)[fd := w.remote] else old(fdRedirMap)
      ensures old(StateOf(fd)) != Some(OPENING) ==> StateOf(fd) == old(StateOf(fd))
    {
      ghost var was := View().status;
      var status := if fd in fdStateMap then fdStateMap[fd] else null;
      var opening := status != null && status.state == OPENING;
      ready, ended := WaitFdReady(status, w.now, TIMEOUT, w.wakes);
      if opening && ready {
        fdRedirMap := fdRedirMap[fd := w.remote];      // stored by the open callback
      }
      if fd in fdStateMap {
        forall e | e in fdStateMap ensures View().status[e] == was[fd := fdStateMap[fd].state][e] {
          assert e != fd ==> fdStateMap[e] != fdStateMap[fd];
        }
        assert View().status == was[fd := fdStateMap[fd].state];
        assert !opening ==> was[fd := fdStateMap[fd].state] == was;
      }
    }

    // The client half of a read request and the server's handler; None means that the
    // wrapper falls back.
    method GenReadRpc(cfg: Config, rank: nat, server: HvacServer, fd: int, count: nat, offset: int, w: World)
      returns (result: Option<Bytes>)
      requires Valid() && Backed(cfg, rank, server, fd, w) && fd in fdMap && offset >= -1
      modifies this`fdRedirMap, StatusOf(fd), server`kernel
      ensures Server.Inv(cfg, rank, server.View())
      ensures result.Some? <==> old(Reaches(fd, w))
      ensures result.Some? ==>
                var r := old(RemoteFd(fd, w));
                && r in old(server.kernel)
                && var pos := if offset == -1 then old(server.kernel)[r].cursor else offset;
                && ReadMeaning(cfg.disk[fdMap[fd]], pos, count, result.value)
                && (count > 0 && pos < |cfg.disk[fdMap[fd]]| ==> |result.value| > 0)
                && server.kernel == if offset == -1 then Ahead(old(server.kernel), r, |result.value|)
                                    else old(server.kernel)
      ensures result.None? ==> server.kernel == old(server.kernel)
      ensures View() == AfterWait(old(View()), fd, w)
      ensures fdRedirMap == if old(StateOf(fd)) == Some(OPENING) && WakesReady(w.wakes)
                            then old(fdRedirMap)[fd := w.remote] else old(fdRedirMap)
      ensures old(StateOf(fd)) != Some(OPENING) ==> StateOf(fd) == old(StateOf(fd))
    {
      var ready, _ := AwaitReady(fd, w);
      if !ready { return None; }
      if fd !in fdRedirMap || fdRedirMap[fd] == 0 { return None; }
      if !w.sent { return None; }
      var buffer := server.RpcHandler(cfg, rank, fdRedirMap[fd], offset, count);
      result := Some(buffer);
    }

    method RealRead(cfg: Config, fd: int, count: nat) returns (data: Bytes)
      requires fd in local && local[fd].path in cfg.disk
      modifies this`local
      ensures ReadMeaning(cfg.disk[old(local)[fd].path], old(local)[fd].cursor, count, data)
      ensures local == old(local)[fd := old(local)[fd].(cursor := old(local)[fd].cursor + |data|)]
      ensures View() == LocalRead(old(View()), fd, |data|)
    {
      data := RealPread(cfg, fd, count, local[fd].cursor);
      local := local[fd := local[fd].(cursor := local[fd].cursor + |data|)];
    }

    method RealPread(cfg: Config, fd: int, count: nat, offset: nat) returns (data: Bytes)
      requires fd in local && local[fd].path in cfg.disk
      ensures ReadMeaning(cfg.disk[local[fd].path], offset, count, data)
    {
      var content := cfg.disk[local[fd].path];
      LengthExists(|content|, offset, count);
      var n :| 0 <= n <= count && ReadLength(|content|, offset, count, n);
      data := Chunk(content, offset, n);
    }

    method RemoteRead(cfg: Config, rank: nat, server: HvacServer, fd: int, count: nat, w: World)
      returns (result: Option<Bytes>)
      requires Valid() && Backed(cfg, rank, server, fd, w)
      modifies this`fdRedirMap, StatusOf(fd), server`kernel
      ensures Server.Inv(cfg, rank, server.View())
      ensures result.Some? <==> old(Reaches(fd, w))
      ensures result.Some? ==>
                var r := old(RemoteFd(fd, w));
                && r in old(server.kernel)
                && ReadMeaning(cfg.disk[local[fd].path], old(server.kernel)[r].cursor, count, result.value)
                && server.kernel == Ahead(old(server.kernel), r, |result.value|)
      ensures result.None? ==> server.kernel == old(server.kernel)
      ensures View() == if fd in fdMap then AfterWait(old(View()), fd, w) else old(View())
      ensures fdRedirMap == if fd in fdMap && old(StateOf(fd)) == Some(OPENING) && WakesReady(w.wakes)
                            then old(fdRedirMap)[fd := w.remote] else old(fdRedirMap)
      ensures old(StateOf(fd)) != Some(OPENING) ==> StateOf(fd) == old(StateOf(fd))
    {
      result := None;
      if fd in fdMap {
        result := GenReadRpc(cfg, rank, server, fd, count, -1, w);
      }
    }

    // pread looks for a mapping first.
    method RemotePread(cfg: Config, rank: nat, server: HvacServer, fd: int, count: nat, offset: nat, w: World)
      returns (result: Option<Bytes>)
      requires Valid() && Backed(cfg, rank, server, fd, w)
      modifies this`fdRedirMap, StatusOf(fd), server`kernel
      ensures Server.Inv(cfg, rank, server.View()) && server.kernel == old(server.kernel)
      ensures result.Some? <==> old(Reaches(fd, w)) && old(RemoteFd(fd, w)) != 0 && fd in old(fdRedirMap)
                                && old(fdRedirMap)[fd] != 0
      ensures result.Some? ==> ReadMeaning(cfg.disk[local[fd].path], offset, count, result.value)
      ensures var y := if fd in fdMap then Touch(old(View()), fd) else old(View());
              View() == if fd in fdMap && y.redir[fd] != 0 then AfterWait(y, fd, w) else y
      ensures fdRedirMap ==
              if fd in fdMap && fd !in old(fdRedirMap) then old(fdRedirMap)[fd := 0]
              else if && fd in fdMap && old(fdRedirMap)[fd] != 0
                      && old(StateOf(fd)) == Some(OPENING) && WakesReady(w.wakes)
              then old(fdRedirMap)[fd := w.remote] else old(fdRedirMap)
      ensures old(StateOf(fd)) != Some(OPENING) ==> StateOf(fd) == old(StateOf(fd))
    {
      result := None;
      if fd in fdMap {
        if fd !in fdRedirMap { fdRedirMap := fdRedirMap[fd := 0]; }
        assert View() == Touch(old(View()), fd);
        if fdRedirMap[fd] != 0 {
          result := GenReadRpc(cfg, rank, server, fd, count, offset, w);
        }
      }
    }

    // The read wrapper.  Either the request reaches the server and the bytes are the
    // file's at the remote cursor, which alone moves; or they are the file's at the local
    // cursor, which alone moves.  Nothing is lost of the maps.
    method Read(cfg: Config, rank: nat, server: HvacServer, fd: int, count: nat, w: World) returns (data: Bytes)
      requires Valid() && Backed(cfg, rank, server, fd, w)
      modifies this`fdRedirMap, this`local, StatusOf(fd), server`kernel
      ensures Server.Inv(cfg, rank, server.View())
      ensures old(Reaches(fd, w)) ==>
                var r := old(RemoteFd(fd, w));
                && r in old(server.kernel)
                && ReadMeaning(cfg.disk[old(local)[fd].path], old(server.kernel)[r].cursor, count, data)
                && server.kernel == Ahead(old(server.kernel), r, |data|)
                && local == old(local)
      ensures !old(Reaches(fd, w)) ==>
                && ReadMeaning(cfg.disk[old(local)[fd].path], old(local)[fd].cursor, count, data)
                && local == old(local)[fd := old(local)[fd].(cursor := old(local)[fd].cursor + |data|)]
                && server.kernel == old(server.kernel)
      // the bytes themselves, and none only at the end of the file
      ensures var file := cfg.disk[old(local)[fd].path];
              var pos := if old(Reaches(fd, w)) then old(server.kernel)[old(RemoteFd(fd, w))].cursor
                         else old(local)[fd].cursor;
              && |data| <= count && (count > 0 && pos < |file| ==> |data| > 0)
              && (|data| > 0 ==> pos + |data| <= |file| && forall i :: 0 <= i < |data| ==> data[i] == file[pos + i])
      // the maps: as before, but for what the other threads did during a wait
      ensures var x := if fd in old(fdMap) then AfterWait(old(View()), fd, w) else old(View());
              View() == if old(Reaches(fd, w)) then x else LocalRead(x, fd, |data|)
      ensures fdRedirMap ==
              if fd in old(fdMap) && old(StateOf(fd)) == Some(OPENING) && WakesReady(w.wakes)
              then old(fdRedirMap)[fd := w.remote] else old(fdRedirMap)
      ensures old(StateOf(fd)) != Some(OPENING) ==> StateOf(fd) == old(StateOf(fd))
    {
      var result := RemoteRead(cfg, rank, server, fd, count, w);
      match result {
        case Some(bytes) => data := bytes;
        case None => data := RealRead(cfg, fd, count);
      }
      ghost var pos := if old(Reaches(fd, w)) then old(server.kernel)[old(RemoteFd(fd, w))].cursor
                       else old(local)[fd].cursor;
      ReadLaws(cfg.disk[old(local)[fd].path], pos, count, data);
    }

    // The pread wrapper: the file's slice at the offset, whoever serves it, and no cursor
    // moves.  The lookup that comes first may leave a zero, which is no mapping; a mapping
    // that is there stays.
    method Pread(cfg: Config, rank: nat, server: HvacServer, fd: int, count: nat, offset: nat, w: World)
      returns (data: Bytes)
      requires Valid() && Backed(cfg, rank, server, fd, w)
      modifies this`fdRedirMap, StatusOf(fd), server`kernel
      ensures Server.Inv(cfg, rank, server.View())
      ensures ReadMeaning(cfg.disk[local[fd].path], offset, count, data)
      ensures server.kernel == old(server.kernel)
      // the bytes themselves, and none only at the end of the file
      ensures var file := cfg.disk[local[fd].path];
              && |data| <= count && (count > 0 && offset < |file| ==> |data| > 0)
              && (|data| > 0 ==>
                    offset + |data| <= |file| && forall i :: 0 <= i < |data| ==> data[i] == file[offset + i])
      // the maps: the lookup, and what the other threads did during a wait
      ensures var y := if fd in fdMap then Touch(old(View()), fd) else old(View());
              View() == if fd in fdMap && y.redir[fd] != 0 then AfterWait(y, fd, w) else y
      ensures fdRedirMap ==
              if fd in fdMap && fd !in old(fdRedirMap) then old(fdRedirMap)[fd := 0]
              else if && fd in fdMap && old(fdRedirMap)[fd] != 0
                      && old(StateOf(fd)) == Some(OPENING) && WakesReady(w.wakes)
              then old(fdRedirMap)[fd := w.remote] else old(fdRedirMap)
      ensures old(StateOf(fd)) != Some(OPENING) ==> StateOf(fd) == old(StateOf(fd))
    {
      var result := RemotePread(cfg, rank, server, fd, count, offset, w);
      match result {
        case Some(bytes) => data := bytes;
        case None => data := RealPread(cfg, fd, count, offset);
      }
      ReadLaws(cfg.disk[local[fd].path], offset, count, data);
    }

    // ----------------------------------------------------------------- close

    // hvac_remove_fd: the message to send, if any; the mapping goes even when it cannot
    // be sent.
    method RemoveFd(fd: int, sent: bool) returns (message: Option<int>)
      requires Valid()
      modifies this`fdMap, this`fdStateMap, this`fdRedirMap
      ensures Valid()
      ensures View() == if fd in old(fdMap) then TrackedClose(old(View()), fd) else old(View())
      ensures message == if fd in old(fdMap) && fd in old(fdRedirMap) && old(fdRedirMap)[fd] != 0 && sent
                         then Some(old(fdRedirMap)[fd]) else None
      ensures fd in old(fdMap) && (fd in old(fdRedirMap) ==> old(fdRedirMap)[fd] >= 0) ==> !Mapped(View(), fd)
    {
      message := None;
      if fd in fdMap {
        if fd in fdRedirMap && fdRedirMap[fd] != 0 {
          if sent { message := Some(fdRedirMap[fd]); }
          fdRedirMap := fdRedirMap - {fd};
        }
        CleanupFdState(fd);
        fdMap := fdMap - {fd};
      }
    }
  }
}
