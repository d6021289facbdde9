// Sequential reads of one handle, each served either by the server through its cursor or
// by the real call through the local one.  Which positions of the file does the
// application get to see?
module Fallback {
  import opened Files
  import opened Posix

  // How far one of the two cursors has moved.
  function Moved(got: seq<Got>, remote: bool): nat
    decreases |got|
  {
    if got == [] then 0 else
      var r := got[|got| - 1];
      Moved(got[..|got| - 1], remote) + (if r.side.RemoteSide? == remote then |r.out| else 0)
  }

  // Every read is one that a conforming file system could have answered at the cursor of
  // the side that served it.
  ghost predicate Replays(b: Bytes, got: seq<Got>)
    decreases |got|
  {
    got == [] ||
    var before, r := got[..|got| - 1], got[|got| - 1];
    Replays(b, before) && ReadMeaning(b, Moved(before, r.side.RemoteSide?), r.count, r.out)
  }

  // What was delivered: the bytes, and where in the file each of them came from.
  function Stream(got: seq<Got>): Bytes
    decreases |got|
  {
    if got == [] then [] else Stream(got[..|got| - 1]) + got[|got| - 1].out
  }

  function Positions(got: seq<Got>): seq<int>
    decreases |got|
  {
    if got == [] then [] else
      var before, r := got[..|got| - 1], got[|got| - 1];
      Positions(before) + seq(|r.out|, i requires i >= 0 => Moved(before, r.side.RemoteSide?) + i)
  }

  // Positions 0, 1, 2, ...: nothing skipped, nothing twice.
  ghost predicate InOrder(got: seq<Got>)
  {
    forall i :: 0 <= i < |Positions(got)| ==> Positions(got)[i] == i
  }

  ghost predicate Gave(got: seq<Got>, side: Side)
  {
    exists i :: 0 <= i < |got| && got[i].side == side && got[i].out != []
  }

  // ------------------------------------------------------- bytes and positions

  lemma {:induction false} Lengths(got: seq<Got>)
    ensures |Positions(got)| == |Stream(got)| == Moved(got, true) + Moved(got, false)
    decreases |got|
  {
    if got != [] { Lengths(got[..|got| - 1]); }
  }

  // Each delivered byte is the file's byte at its position.
  lemma {:induction false} BytesAtPositions(b: Bytes, got: seq<Got>)
    requires Replays(b, got)
    ensures |Positions(got)| == |Stream(got)|
    ensures forall i :: 0 <= i < |Stream(got)| ==>
              0 <= Positions(got)[i] < |b| && Stream(got)[i] == b[Positions(got)[i]]
    decreases |got|
  {
    Lengths(got);
    if got != [] {
      var before, r := got[..|got| - 1], got[|got| - 1];
      BytesAtPositions(b, before);
      Lengths(before);
      var pos, m := Moved(before, r.side.RemoteSide?), |Stream(before)|;
      forall i | 0 <= i < |Stream(got)|
        ensures 0 <= Positions(got)[i] < |b| && Stream(got)[i] == b[Positions(got)[i]]
      {
        if i >= m {
          assert Positions(got)[i] == pos + (i - m);
          assert Stream(got)[i] == r.out[i - m];
        } else {
          Lengths(before);
          assert Stream(got)[i] == Stream(before)[i] && Positions(got)[i] == Positions(before)[i];
        }
      }
    }
  }

  lemma {:induction false} OneSideInOrder(got: seq<Got>, remote: bool)
    requires Moved(got, !remote) == 0
    ensures InOrder(got)
    decreases |got|
  {
    if got != [] {
      var before, r := got[..|got| - 1], got[|got| - 1];
      OneSideInOrder(before, remote);
      Lengths(before);
      var m := |Positions(before)|;
      forall i | 0 <= i < |Positions(got)| ensures Positions(got)[i] == i {
        if i < m {
          assert Positions(got)[i] == Positions(before)[i];
        } else {
          assert Positions(got)[i] == Moved(before, r.side.RemoteSide?) + (i - m);
        }
      }
    }
  }

  // Once both cursors have moved the beginning of the file has been delivered twice.
  lemma {:induction false} BothSidesRepeat(got: seq<Got>) returns (m: nat)
    requires Moved(got, true) > 0 && Moved(got, false) > 0
    ensures 0 < m < |Positions(got)| && Positions(got)[m] == 0 && Positions(got)[0] == 0
    decreases |got|
  {
    var before, r := got[..|got| - 1], got[|got| - 1];
    Lengths(before);
    Lengths(got);
    if Moved(before, true) > 0 && Moved(before, false) > 0 {
      m := BothSidesRepeat(before);
    } else {
      m := |Positions(before)|;
      OneSideInOrder(before, Moved(before, true) > 0);
      assert Positions(got)[m] == Moved(before, r.side.RemoteSide?) + 0;
      assert Positions(got)[0] == Positions(before)[0];
    }
  }

  // The application sees the file from its start, in order, exactly when one of the two
  // cursors never moved.
  lemma InOrderIff(got: seq<Got>)
    ensures InOrder(got) <==> Moved(got, true) == 0 || Moved(got, false) == 0
  {
    if Moved(got, true) == 0 {
      OneSideInOrder(got, false);
    } else if Moved(got, false) == 0 {
      OneSideInOrder(got, true);
    } else {
      var m := BothSidesRepeat(got);
    }
  }

  // In order means a prefix of the file; out of order means that its first byte comes a
  // second time, so that the stream is wrong for every file with a first byte of its own.
  lemma StreamIffInOrder(b: Bytes, got: seq<Got>)
    requires Replays(b, got)
    ensures InOrder(got) ==> Stream(got) <= b
    ensures (forall j :: 0 < j < |b| ==> b[j] != b[0]) ==> (Stream(got) <= b <==> InOrder(got))
  {
    BytesAtPositions(b, got);
    if InOrder(got) {
      var n := |Stream(got)|;
      if n > 0 { assert Positions(got)[n - 1] == n - 1; }
      assert Stream(got) == b[..n];
    } else if forall j :: 0 < j < |b| ==> b[j] != b[0] {
      InOrderIff(got);
      var m := BothSidesRepeat(got);
      assert Stream(got)[m] == b[0];
    }
  }

  // Reading on until nothing more comes delivers the whole file, neither more nor less,
  // when the reads were in order.
  lemma NothingMoreMeansAll(b: Bytes, got: seq<Got>)
    requires Replays(b, got) && InOrder(got)
    requires got != [] && got[|got| - 1].count > 0 && got[|got| - 1].out == []
    ensures Stream(got) == b
  {
    var before, last := got[..|got| - 1], got[|got| - 1];
    StreamIffInOrder(b, got);
    InOrderIff(got);
    Lengths(got);
    Lengths(before);
    ReadLaws(b, Moved(before, last.side.RemoteSide?), last.count, last.out);
  }

  lemma {:induction false} MovedIffGave(got: seq<Got>, remote: bool)
    ensures Moved(got, remote) > 0 <==>
            exists i :: 0 <= i < |got| && got[i].side.RemoteSide? == remote && got[i].out != []
    decreases |got|
  {
    if got != [] {
      var before, r := got[..|got| - 1], got[|got| - 1];
      MovedIffGave(before, remote);
      if i :| 0 <= i < |before| && before[i].side.RemoteSide? == remote && before[i].out != [] {
        assert got[i] == before[i];
      }
      if Moved(got, remote) > 0 && Moved(before, remote) == 0 {
        assert got[|got| - 1].out != [];
      }
      if i :| 0 <= i < |got| && got[i].side.RemoteSide? == remote && got[i].out != [] {
        assert i < |before| ==> before[i] == got[i];
      }
    }
  }

  // ----------------------------------------------------------- in any run

  ghost predicate Kept(cfg: Config, st: State, h: Handle, got: seq<Got>, seeked: bool)
  {
    h in st && !seeked ==>
      && st[h].path in cfg.disk && Replays(cfg.disk[st[h].path], got)
      && st[h].remote == Moved(got, true) && st[h].local == Moved(got, false)
  }

  lemma KeptStep(cfg: Config, st: State, ev: Event, h: Handle, got: seq<Got>, seeked: bool)
    requires Accepts(cfg, st, ev) && Kept(cfg, st, h, got, seeked)
    ensures Kept(cfg, Next(st, ev), h, Noted(ev, h, got), SeekNoted(ev, h, seeked))
  {
    if ev.ReadEv? && ev.h == h {
      var after := got + [Got(ev.side, ev.count, ev.out)];
      assert after[..|after| - 1] == got;
    }
  }

  // What the simple file system accepts on a handle that no seek has reached since its
  // open are reads at two cursors, the ones it keeps.
  lemma {:induction false} AcceptedReadsReplay(cfg: Config, st: State, evs: seq<Event>, h: Handle, sofar: seq<Got>,
                                               seeked: bool)
    requires AcceptsAll(cfg, st, evs) && Kept(cfg, st, h, sofar, seeked)
    ensures Kept(cfg, Final(st, evs), h, Reads(evs, h, sofar), Seeked(evs, h, seeked))
    decreases |evs|
  {
    if evs != [] {
      KeptStep(cfg, st, evs[0], h, sofar, seeked);
      AcceptedReadsReplay(cfg, Next(st, evs[0]), evs[1..], h, Noted(evs[0], h, sofar), SeekNoted(evs[0], h, seeked));
    }
  }
}
