// The server process as code: the RPC handlers and the data mover over the maps and the
// queue they share.  Each method is a step, or a run of steps, of the state machine.
module ServerProcess {
  import opened Files
  import opened Server
  import ServerRuns

  // The open fds after n bytes were read at the cursor of one of them.
  ghost function Ahead(kernel: map<int, OpenFile>, fd: int, n: nat): map<int, OpenFile>
    requires fd in kernel
  {
    kernel[fd := kernel[fd].(cursor := kernel[fd].cursor + n)]
  }

  class HvacServer {
    // what the operating system keeps for this process
    var kernel: map<int, OpenFile>
    var files: map<Path, Bytes>
    // the program's globals
    var fdToPath: map<int, Path>
    var pathCacheMap: map<Path, Path>
    var dataQueue: seq<Path>
    // the mover's private list
    var localList: seq<Path>
    ghost var phase: Phase
    ghost var published: map<Path, Path>
    ghost var hist: seq<Event>

    ghost function View(): Server
      reads this
    {
      Server(kernel, fdToPath, pathCacheMap, dataQueue, None, phase, localList, files, published, hist)
    }

    constructor ()
      ensures View() == Boot
    {
      kernel, files, fdToPath, pathCacheMap := map[], map[], map[], map[];
      dataQueue, localList := [], [];
      phase, published, hist := Waiting, map[], [];
    }

    // `ret` is what open(2) gives for the path it is called with.  The open is redirected
    // exactly when the path is in path_cache_map; fd_to_path keeps the original.
    method OpenRpcHandler(cfg: Config, rank: nat, path: Path, ret: int) returns (status: int)
      requires Inv(cfg, rank, View()) && Mine(cfg, rank, path)
      requires ret == -1 || (ret >= 0 && ret !in kernel)
      modifies this
      ensures Enabled(cfg, old(View()), Open(path, ret))
      ensures View() == Apply(cfg, old(View()), Open(path, ret)) && Inv(cfg, rank, View())
      ensures status == ret
      ensures ret >= 0 && path in old(pathCacheMap) ==>
                kernel == old(kernel)[ret := OpenFile(old(pathCacheMap)[path], 0)]
      ensures ret >= 0 && path !in old(pathCacheMap) ==> kernel == old(kernel)[ret := OpenFile(path, 0)]
      ensures ret < 0 ==> kernel == old(kernel)
      ensures fdToPath == old(fdToPath)[ret := path] && pathCacheMap == old(pathCacheMap)
      // the new fd reads like the original
      ensures ret >= 0 ==> ret in kernel && Content(cfg, View(), kernel[ret].file) == cfg.disk[path]
    {
      StepInv(cfg, rank, View(), Open(path, ret));
      var redirPath := path;
      if redirPath in pathCacheMap {
        redirPath := pathCacheMap[redirPath];
      }
      if ret >= 0 {
        kernel := kernel[ret := OpenFile(redirPath, 0)];
      }
      fdToPath := fdToPath[ret := path];
      status := ret;
      if ret >= 0 { ServerRuns.FdContent(cfg, rank, View(), ret); }
    }

    // The buffer may be any that read(2) or pread(2) can fill; offset -1 asks for read(2).
    method RpcHandler(cfg: Config, rank: nat, fd: int, offset: int, count: nat) returns (buffer: Bytes)
      requires Inv(cfg, rank, View()) && fd in kernel && offset >= -1
      modifies this`kernel
      ensures Enabled(cfg, old(View()), Read(fd, offset, count, |buffer|))
      ensures View() == Apply(cfg, old(View()), Read(fd, offset, count, |buffer|)) && Inv(cfg, rank, View())
      ensures fd in fdToPath && fdToPath[fd] in cfg.disk
      ensures var file, pos := cfg.disk[fdToPath[fd]], if offset == -1 then old(kernel)[fd].cursor else offset;
              && ReadMeaning(file, pos, count, buffer)
              && |buffer| <= count && (count > 0 && pos < |file| ==> |buffer| > 0)
              && (|buffer| > 0 ==>
                    pos + |buffer| <= |file| && forall i :: 0 <= i < |buffer| ==> buffer[i] == file[pos + i])
      ensures offset >= 0 ==> kernel == old(kernel)
      ensures offset == -1 ==> kernel == Ahead(old(kernel), fd, |buffer|)
    {
      ServerRuns.FdContent(cfg, rank, View(), fd);
      var pos := if offset == -1 then kernel[fd].cursor else offset;
      buffer := ReadFile(cfg, kernel[fd].file, pos, count);
      ReadLaws(cfg.disk[fdToPath[fd]], pos, count, buffer);
      StepInv(cfg, rank, View(), Read(fd, offset, count, |buffer|));
      if offset == -1 {
        kernel := kernel[fd := kernel[fd].(cursor := kernel[fd].cursor + |buffer|)];
      }
    }

    method ReadFile(cfg: Config, file: Path, pos: nat, count: nat) returns (buffer: Bytes)
      ensures ReadMeaning(Content(cfg, View(), file), pos, count, buffer)
    {
      var content := if file in cfg.disk then cfg.disk[file] else if file in files then files[file] else [];
      LengthExists(|content|, pos, count);
      var n :| 0 <= n <= count && ReadLength(|content|, pos, count, n);
      buffer := Chunk(content, pos, n);
    }

    // `stray` is what lseek gives on an fd that is not open for a client.
    method SeekRpcHandler(cfg: Config, rank: nat, fd: int, offset: int, whence: Whence, stray: int) returns (res: int)
      requires Inv(cfg, rank, View())
      modifies this`kernel
      ensures Inv(cfg, rank, View())
      ensures fd in old(kernel) ==>
                && View() == Apply(cfg, old(View()), Seek(fd, offset, whence))
                && fd in fdToPath && fdToPath[fd] in cfg.disk
                && res == SeekMeaning(|cfg.disk[fdToPath[fd]]|, old(kernel)[fd].cursor, offset, whence)
                && kernel == if res >= 0 then old(kernel)[fd := old(kernel)[fd].(cursor := res)] else old(kernel)
      ensures fd !in old(kernel) ==> res == stray && View() == old(View())
    {
      if fd !in kernel {
        return stray;
      }
      StepInv(cfg, rank, View(), Seek(fd, offset, whence));
      ServerRuns.FdContent(cfg, rank, View(), fd);
      var file := kernel[fd].file;
      var content := if file in cfg.disk then cfg.disk[file] else if file in files then files[file] else [];
      res := SeekMeaning(|content|, kernel[fd].cursor, offset, whence);
      if res >= 0 {
        kernel := kernel[fd := kernel[fd].(cursor := res)];
      }
    }

    // The whole close handler: the cache test, the push when p is uncached, the erase.
    method CloseRpcHandler(cfg: Config, rank: nat, fd: int)
      requires Inv(cfg, rank, View()) && fd in kernel
      modifies this
      ensures Inv(cfg, rank, View())
      ensures fd in old(fdToPath) && kernel == old(kernel) - {fd} && fdToPath == old(fdToPath) - {fd}
      ensures var mid := Apply(cfg, old(View()), CloseTest(fd));
              View() == if mid.closing.Some? then Apply(cfg, mid, ClosePush) else mid
      ensures dataQueue == old(dataQueue) + (if old(fdToPath)[fd] in pathCacheMap then [] else [old(fdToPath)[fd]])
    {
      ServerRuns.CloseHandled(cfg, rank, View(), fd);
      ghost var s := View();
      kernel := kernel - {fd};
      hist := hist + [Tested(fdToPath[fd])];
      if fdToPath[fd] !in pathCacheMap {
        dataQueue := dataQueue + [fdToPath[fd]];
        hist := hist + [Pushed(fdToPath[fd])];
      }
      fdToPath := fdToPath - {fd};
      assert View() == ServerRuns.Closed(s, fd);
    }

    // Woken with the lock held, the mover moves the shared queue to its own list.
    method Drain(cfg: Config, rank: nat)
      requires Inv(cfg, rank, View()) && phase.Waiting?
      modifies this`dataQueue, this`localList, this`phase
      ensures View() == Apply(cfg, old(View()), Wake) && Inv(cfg, rank, View())
      ensures localList == old(localList) + old(dataQueue) && dataQueue == []
    {
      StepInv(cfg, rank, View(), Wake);
      ghost var all := localList + dataQueue;
      phase := Running;
      while dataQueue != []
        invariant localList + dataQueue == all && phase.Running?
        decreases |dataQueue|
      {
        assert localList + dataQueue == (localList + [dataQueue[0]]) + dataQueue[1..];
        localList := localList + [dataQueue[0]];
        dataQueue := dataQueue[1..];
      }
      assert localList == all;
    }

    ghost predicate FreshFrom(cfg: Config, names: seq<Path>, from: nat)
      reads this`files, this`published
    {
      && (forall j :: from <= j < |names| ==> names[j] !in cfg.disk && names[j] !in files && names[j] !in published)
      && (forall i, j :: from <= i < j < |names| ==> names[i] != names[j])
    }

    // j items of the list are done: a run of mover steps led here from `start`, and every
    // item that copied is served from its copy.
    ghost predicate Copied(cfg: Config, rank: nat, start: Server, acts: seq<Act>, names: seq<Path>,
                           outs: seq<Option<nat>>, j: nat)
      requires |names| == |outs| == |start.local| && j <= |names|
      reads this
    {
      && localList == start.local[j..] && phase.Running?
      && ServerRuns.Valid(cfg, rank, start, acts) && View() == ServerRuns.After(cfg, rank, start, acts)
      && (forall i :: 0 <= i < |acts| ==> IsMover(acts[i]) && !acts[i].Wake?)
      && FreshFrom(cfg, names, j)
      && start.cache.Keys <= pathCacheMap.Keys
      && (forall i :: 0 <= i < j && outs[i].None? ==> start.local[i] in pathCacheMap)
    }

    // The copy loop.  names[j] is the target that mkdtemp and the file name give for the
    // j-th item; outs[j] is None when its copy succeeds, or else how much was written.
    method CopyAll(cfg: Config, rank: nat, names: seq<Path>, outs: seq<Option<nat>>) returns (ghost acts: seq<Act>)
      requires Inv(cfg, rank, View()) && phase.Running?
      requires |names| == |outs| == |localList|
      requires FreshFrom(cfg, names, 0)
      modifies this`localList, this`files, this`pathCacheMap, this`phase, this`published, this`hist
      ensures ServerRuns.Valid(cfg, rank, old(View()), acts)
      ensures View() == ServerRuns.After(cfg, rank, old(View()), acts)
      ensures forall j :: 0 <= j < |acts| ==> IsMover(acts[j]) && !acts[j].Wake?
      ensures localList == [] && phase.Waiting?
      // every item that copied is served from its copy from now on
      ensures old(pathCacheMap.Keys) <= pathCacheMap.Keys
      ensures forall j :: 0 <= j < |outs| && outs[j].None? ==> old(localList)[j] in pathCacheMap
    {
      acts := [];
      ghost var start := View();
      var j := 0;
      while localList != []
        invariant 0 <= j <= |names| && Copied(cfg, rank, start, acts, names, outs, j)
        decreases |localList|
      {
        acts := CopyNext(cfg, rank, start, acts, names, outs, j);
        j := j + 1;
      }
      ServerRuns.Then(cfg, rank, start, acts, Sleep);
      acts := acts + [Sleep];
      phase := Waiting;
    }

    method CopyNext(cfg: Config, rank: nat, ghost start: Server, ghost acts: seq<Act>, names: seq<Path>,
                    outs: seq<Option<nat>>, j: nat)
      returns (ghost all: seq<Act>)
      requires Inv(cfg, rank, start) && |names| == |outs| == |start.local| && j < |names|
      requires Copied(cfg, rank, start, acts, names, outs, j)
      modifies this`localList, this`files, this`pathCacheMap, this`published, this`hist
      ensures Copied(cfg, rank, start, all, names, outs, j + 1)
    {
      all := ServerRuns.RoundAfter(cfg, rank, start, acts, names[j], outs[j]);
      assert localList[0] == start.local[j];
      CopyOne(cfg, names[j], outs[j]);
    }

    // One round of the copy loop: a copy that fails, with nothing or only a part written,
    // is never published.
    method CopyOne(cfg: Config, name: Path, out: Option<nat>)
      requires localList != [] && localList[0] in cfg.disk
      modifies this`localList, this`files, this`pathCacheMap, this`published, this`hist
      ensures View() == ServerRuns.Round(cfg, old(View()), name, out)
      ensures localList == old(localList)[1..]
      ensures forall f :: f != name ==> (f in files <==> f in old(files)) && (f in published <==> f in old(published))
      ensures forall p :: p in pathCacheMap <==> p in old(pathCacheMap) || (out.None? && p == old(localList)[0])
      // what the map then leads to is the whole file
      ensures out.None? ==> pathCacheMap[old(localList)[0]] == name
      ensures out.None? ==> name in files && files[name] == cfg.disk[old(localList)[0]]
    {
      var p := localList[0];
      hist := hist + [Attempted(p)];
      var whole := FsCopy(cfg.disk[p], name, out);
      if whole {
        pathCacheMap := pathCacheMap[p := name];
        published := published[name := p];
        hist := hist + [Published(p, name)];
      } else {
        hist := hist + [Failed(p)];
      }
      localList := localList[1..];
    }

    // fs::copy, which may give up after any number of bytes.
    method FsCopy(content: Bytes, name: Path, out: Option<nat>) returns (whole: bool)
      modifies this`files
      ensures whole <==> out.None?
      ensures files == if out.None? then old(files)[name := content]
                       else if 0 < out.value < |content| then old(files)[name := content[..out.value]] else old(files)
    {
      match out {
        case None =>
          files := files[name := content];
          whole := true;
        case Some(n) =>
          if 0 < n < |content| { files := files[name := content[..n]]; }
          whole := false;
      }
    }
  }
}
