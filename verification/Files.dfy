// Files, byte strings and the POSIX meaning of read, pread and lseek that every
// other module is measured against (POSIX.1-2017, System Interfaces, section 3).
module Files {

  newtype byte = x: int | 0 <= x < 256

  type Bytes = seq<byte>

  datatype Path = Path(name: string)

  datatype Option<+T> = None | Some(value: T)

  // What every process of one job agrees on: the original files (not written
  // while they are tracked or cached), the string hash and the server count.
  datatype Config = Config(disk: map<Path, Bytes>, hash: Path -> nat, count: nat)

  // The rank that serves a path: the hash of the path modulo the server count.
  function Host(cfg: Config, p: Path): (s: nat)
    requires cfg.count > 0
    ensures s < cfg.count
  {
    cfg.hash(p) % cfg.count
  }

  // The server of a path is the one rank whose distance from the hash is a multiple of
  // the count; so two paths share a server exactly when their hashes agree modulo count.
  lemma HostLaws(cfg: Config, p: Path, q: Path)
    requires cfg.count > 0
    ensures Host(cfg, p) < cfg.count && cfg.hash(p) == cfg.hash(p) / cfg.count * cfg.count + Host(cfg, p)
    ensures Host(cfg, p) == Host(cfg, q) <==> (cfg.hash(p) - cfg.hash(q)) % cfg.count == 0
    ensures cfg.hash(p) < cfg.count ==> Host(cfg, p) == cfg.hash(p)
  {
    SameRemainder(cfg.hash(p), cfg.hash(q), cfg.count);
    if cfg.hash(p) < cfg.count { SmallRemainder(cfg.hash(p), cfg.count); }
  }

  lemma SmallRemainder(a: nat, m: nat)
    requires a < m
    ensures a % m == a
  {
  }

  lemma MultiplesAreFar(d: int, m: int)
    requires m > 0
    ensures d >= 1 ==> d * m >= m
    ensures d <= -1 ==> d * m <= -m
  {
    if d >= 1 {
      assert (d - 1) * m >= 0;
    } else if d <= -1 {
      assert (-1 - d) * m >= 0;
    }
  }

  // A number is a multiple of m and a remainder in one way only.
  lemma OnlyRemainder(a: int, q: int, r: int, m: nat)
    requires m > 0 && 0 <= r < m && a == q * m + r
    ensures a % m == r
  {
    assert (a / m - q) * m == r - a % m;
    MultiplesAreFar(a / m - q, m);
  }

  lemma SameRemainder(a: nat, b: nat, m: nat)
    requires m > 0
    ensures a % m == b % m <==> (a - b) % m == 0
  {
    var q, r := a / m - b / m, a % m - b % m;
    assert a - b == q * m + r;
    if r >= 0 {
      OnlyRemainder(a - b, q, r, m);
    } else {
      assert (q - 1) * m == q * m - m;
      OnlyRemainder(a - b, q - 1, r + m, m);
    }
  }

  // A read of at most `count` bytes at `pos` may return `n` bytes of a file of
  // `size` bytes: never past the end, and nothing only at the end of the file.
  predicate ReadLength(size: nat, pos: nat, count: nat, n: nat)
  {
    && n <= count
    && (n > 0 ==> pos + n <= size)
    && (n == 0 ==> count == 0 || pos >= size)
  }

  // A read can always be answered.
  lemma LengthExists(size: nat, pos: nat, count: nat)
    ensures exists n :: 0 <= n <= count && ReadLength(size, pos, count, n)
  {
    var n := if pos >= size then 0 else if count <= size - pos then count else size - pos;
    assert ReadLength(size, pos, count, n);
  }

  function Chunk(b: Bytes, pos: nat, n: nat): Bytes
  {
    if pos + n <= |b| then b[pos..pos + n] else []
  }

  // The bytes a conforming read of `content` at `pos` may hand back.
  predicate ReadMeaning(content: Bytes, pos: nat, count: nat, out: Bytes)
  {
    ReadLength(|content|, pos, count, |out|) && out == Chunk(content, pos, |out|)
  }

  // Which bytes these are: at most count, from the position on, and none only at the end
  // of the file or when none were asked for.
  lemma ReadLaws(content: Bytes, pos: nat, count: nat, out: Bytes)
    ensures ReadMeaning(content, pos, count, out) <==>
              && |out| <= count
              && (count > 0 && pos < |content| ==> |out| > 0)
              && (|out| > 0 ==> pos + |out| <= |content| && forall i :: 0 <= i < |out| ==> out[i] == content[pos + i])
  {
    if |out| == 0 {
      assert out == [];
      assert pos <= |content| ==> content[pos..pos] == [];
    } else if pos + |out| <= |content| {
      var slice := content[pos..pos + |out|];
      assert forall i :: 0 <= i < |out| ==> slice[i] == content[pos + i];
    }
  }

  datatype Whence = Set | Cur | End | Invalid

  // The offset lseek returns, or -1 when the call fails and moves nothing.
  function SeekMeaning(size: nat, pos: nat, off: int, whence: Whence): int
  {
    var target := match whence
      case Set => off
      case Cur => pos + off
      case End => size + off
      case Invalid => -1;
    if target < 0 then -1 else target
  }

  // lseek by 0 from the cursor tells it, by 0 from the end the size; any target that is
  // not negative is reached, any other is refused; and what a read then gives begins there.
  lemma SeekLaws(content: Bytes, pos: nat, off: int, count: nat, out: Bytes)
    ensures SeekMeaning(|content|, pos, 0, Cur) == pos
    ensures SeekMeaning(|content|, pos, 0, End) == |content|
    ensures off >= 0 ==> SeekMeaning(|content|, pos, off, Set) == off
    ensures off < 0 ==> SeekMeaning(|content|, pos, off, Set) == -1
    ensures SeekMeaning(|content|, pos, off, Cur) == SeekMeaning(|content|, pos, pos + off, Set)
    ensures SeekMeaning(|content|, pos, off, End) == SeekMeaning(|content|, pos, |content| + off, Set)
    ensures SeekMeaning(|content|, pos, off, Invalid) == -1
    ensures off >= 0 && ReadMeaning(content, SeekMeaning(|content|, pos, off, Set), count, out) ==>
              |out| > 0 ==> off + |out| <= |content| && forall i :: 0 <= i < |out| ==> out[i] == content[off + i]
  {
    if off >= 0 { ReadLaws(content, off, count, out); }
  }

  predicate FitsInt32(x: int) { -0x8000_0000 <= x < 0x8000_0000 }
}
