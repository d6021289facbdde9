// The maps one client process keeps about its file descriptors, and what each piece
// of client code does to them.  Every operation on a map is taken as atomic.
module FdTables {
  import opened Files

  datatype FdState = OPENING | READY | ERROR

  datatype LocalFile = LocalFile(path: Path, cursor: nat)

  datatype Client = Client(
    local: map<int, LocalFile>,   // fds really open in this process
    fdMap: map<int, Path>,        // fd_map
    status: map<int, FdState>,    // fd_state_map
    redir: map<int, int>)         // fd_redir_map

  const Fresh := Client(map[], map[], map[], map[])

  predicate Mapped(c: Client, fd: int) { fd in c.redir && c.redir[fd] > 0 }

  function RealOpen(c: Client, fd: int, p: Path): Client { c.(local := c.local[fd := LocalFile(p, 0)]) }

  function Register(c: Client, fd: int, p: Path): Client { c.(fdMap := c.fdMap[fd := p]) }

  function SetOpening(c: Client, fd: int): Client { c.(status := c.status[fd := OPENING]) }

  // Readiness and failure are recorded only on a status object that still exists.
  function SetReady(c: Client, fd: int): Client
  {
    if fd in c.status then c.(status := c.status[fd := READY]) else c
  }

  function SetError(c: Client, fd: int): Client
  {
    if fd in c.status then c.(status := c.status[fd := ERROR]) else c
  }

  function MapRemote(c: Client, fd: int, r: int): Client { c.(redir := c.redir[fd := r]) }

  // Reading fd_redir_map[fd] inserts a zero when the key is missing.
  function Touch(c: Client, fd: int): Client
  {
    if fd in c.redir then c else c.(redir := c.redir[fd := 0])
  }

  // The open response: a positive fd is mapped before the status turns READY.
  function OpenDone(c: Client, fd: int, r: int): Client
  {
    if r > 0 then SetReady(MapRemote(c, fd, r), fd) else SetError(c, fd)
  }

  // The close request leaves with the mapping; a zero entry stays behind.
  function Unmap(c: Client, fd: int): Client
  {
    if fd in c.redir && c.redir[fd] != 0 then c.(redir := c.redir - {fd}) else c
  }

  function Cleanup(c: Client, fd: int): Client { c.(status := c.status - {fd}) }

  function Forget(c: Client, fd: int): Client { c.(fdMap := c.fdMap - {fd}) }

  function RealClose(c: Client, fd: int): Client { c.(local := c.local - {fd}) }

  function LocalRead(c: Client, fd: int, n: nat): Client
    requires fd in c.local
  {
    c.(local := c.local[fd := c.local[fd].(cursor := c.local[fd].cursor + n)])
  }
}
