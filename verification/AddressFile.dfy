// The file in which servers post their addresses, one "rank address" line each, and the
// scan by which a client looks one up.
module AddressFile {
  import opened Files

  datatype Entry = Entry(rank: int, addr: string)

  // ------------------------------------------------------------- characters

  predicate IsSpace(c: char) { c == ' ' || c == '\n' || c == '\t' || c == '\r' || c as int == 11 || c as int == 12 }

  predicate IsDigit(c: char) { '0' <= c <= '9' }

  predicate IsWord(w: string) { w != "" && forall i :: 0 <= i < |w| ==> !IsSpace(w[i]) }

  // ---------------------------------------------------------------- posting

  function Digits(n: nat): string
  {
    if n < 10 then [('0' as int + n) as char] else Digits(n / 10) + [('0' as int + n % 10) as char]
  }

  function Decimal(n: int): string { if n < 0 then "-" + Digits(-n) else Digits(n) }

  function Line(e: Entry): string { Decimal(e.rank) + " " + e.addr + "\n" }

  function Post(es: seq<Entry>): string
    decreases |es|
  {
    if es == [] then "" else Line(es[0]) + Post(es[1..])
  }

  // --------------------------------------------------------------- scanning

  function SkipSpace(s: string): (r: string)
    ensures |r| <= |s| && (r != "" ==> !IsSpace(r[0]))
  {
    if s == "" || !IsSpace(s[0]) then s else SkipSpace(s[1..])
  }

  // How many leading characters of s are digits; how many are not white space.
  function DigitRun(s: string): (n: nat)
    ensures n <= |s|
  {
    if s == "" || !IsDigit(s[0]) then 0 else 1 + DigitRun(s[1..])
  }

  function WordRun(s: string): (n: nat)
    ensures n <= |s|
  {
    if s == "" || IsSpace(s[0]) then 0 else 1 + WordRun(s[1..])
  }

  function DigitValue(c: char): nat
    requires IsDigit(c)
  {
    c as int - '0' as int
  }

  function Value(s: string): nat
    requires forall i :: 0 <= i < |s| ==> IsDigit(s[i])
  {
    if s == "" then 0 else Value(s[..|s| - 1]) * 10 + DigitValue(s[|s| - 1])
  }

  function Signed(negative: bool, n: int): int { if negative then -n else n }

  lemma {:induction false} RunIsDigits(s: string)
    ensures forall i :: 0 <= i < DigitRun(s) ==> IsDigit(s[i])
  {
    if s != "" && IsDigit(s[0]) {
      RunIsDigits(s[1..]);
      forall i | 0 <= i < DigitRun(s) ensures IsDigit(s[i]) {
        if i > 0 { assert s[i] == s[1..][i - 1]; }
      }
    }
  }

  // %d: white space, an optional sign, at least one digit.
  function ScanInt(s: string): (r: Option<(int, string)>)
    ensures r.Some? ==> |r.value.1| < |s|
  {
    var t := SkipSpace(s);
    var signed := t != "" && (t[0] == '-' || t[0] == '+');
    var u := if signed then t[1..] else t;
    var n := DigitRun(u);
    RunIsDigits(u);
    if n == 0 then None
    else Some((Signed(signed && t[0] == '-', Value(u[..n])), u[n..]))
  }

  // %s: white space, then a word.
  function ScanWord(s: string): (r: Option<(string, string)>)
    ensures r.Some? ==> |r.value.1| <= |s|
  {
    var t := SkipSpace(s);
    var n := WordRun(t);
    if n == 0 then None else Some((t[..n], t[n..]))
  }

  // One call of fscanf with "%d %s\n" that returns 2.
  function ScanLine(s: string): (r: Option<(Entry, string)>)
    ensures r.Some? ==> |r.value.1| < |s|
  {
    match ScanInt(s)
    case None => None
    case Some((rank, t)) =>
      match ScanWord(t)
      case None => None
      case Some((addr, u)) => Some((Entry(rank, addr), SkipSpace(u)))
  }

  function ScanAll(s: string): seq<Entry>
    decreases |s|
  {
    match ScanLine(s)
    case None => []
    case Some((e, rest)) => [e] + ScanAll(rest)
  }

  function FirstFor(es: seq<Entry>, rank: int): Option<string>
    decreases |es|
  {
    if es == [] then None else if es[0].rank == rank then Some(es[0].addr) else FirstFor(es[1..], rank)
  }

  // ------------------------------------------------------------- round trip

  lemma {:induction false} DigitsProperties(n: nat)
    ensures Digits(n) != "" && forall i :: 0 <= i < |Digits(n)| ==> IsDigit(Digits(n)[i])
    ensures Value(Digits(n)) == n
  {
    if n >= 10 {
      DigitsProperties(n / 10);
      var d := Digits(n);
      assert d[..|d| - 1] == Digits(n / 10);
    } else {
      assert Digits(n)[..0] == "";
    }
  }

  lemma {:induction false} DigitRunOf(a: string, b: string)
    requires forall i :: 0 <= i < |a| ==> IsDigit(a[i])
    requires b == "" || !IsDigit(b[0])
    ensures DigitRun(a + b) == |a|
  {
    if a == "" {
      assert a + b == b;
    } else {
      assert (a + b)[1..] == a[1..] + b;
      DigitRunOf(a[1..], b);
    }
  }

  lemma {:induction false} WordRunOf(a: string, b: string)
    requires forall i :: 0 <= i < |a| ==> !IsSpace(a[i])
    requires b == "" || IsSpace(b[0])
    ensures WordRun(a + b) == |a|
  {
    if a == "" {
      assert a + b == b;
    } else {
      assert (a + b)[1..] == a[1..] + b;
      WordRunOf(a[1..], b);
    }
  }

  lemma DecimalStartsPlain(n: int)
    ensures Decimal(n) != "" && !IsSpace(Decimal(n)[0])
  {
    DigitsProperties(if n < 0 then -n else n);
  }

  lemma NothingToSkip(s: string)
    requires s == "" || !IsSpace(s[0])
    ensures SkipSpace(s) == s
  {
  }

  predicate AllDigits(d: string) { d != "" && forall i :: 0 <= i < |d| ==> IsDigit(d[i]) }

  lemma ScanUnsigned(d: string, rest: string)
    requires AllDigits(d) && (rest == "" || !IsDigit(rest[0]))
    ensures ScanInt(d + rest) == Some((Value(d), rest))
  {
    DigitRunOf(d, rest);
    assert (d + rest)[0] == d[0];
    NothingToSkip(d + rest);
    assert (d + rest)[..|d|] == d && (d + rest)[|d|..] == rest;
  }

  lemma ScanNegative(d: string, rest: string)
    requires AllDigits(d) && (rest == "" || !IsDigit(rest[0]))
    ensures ScanInt("-" + (d + rest)) == Some((Signed(true, Value(d)), rest))
  {
    var u := d + rest;
    var s := "-" + u;
    DigitRunOf(d, rest);
    assert s[0] == '-' && s[1..] == u;
    NothingToSkip(s);
    assert u[..|d|] == d && u[|d|..] == rest;
  }

  lemma ScanDecimal(n: int, rest: string)
    requires rest == "" || !IsDigit(rest[0])
    ensures ScanInt(Decimal(n) + rest) == Some((n, rest))
  {
    var m := if n < 0 then -n else n;
    DigitsProperties(m);
    if n < 0 {
      ScanNegative(Digits(m), rest);
      assert Decimal(n) + rest == "-" + (Digits(m) + rest);
    } else {
      ScanUnsigned(Digits(m), rest);
    }
  }

  lemma ScanWordOf(w: string, rest: string)
    requires IsWord(w)
    ensures ScanWord(" " + (w + "\n" + rest)) == Some((w, "\n" + rest))
  {
    var s := w + "\n" + rest;
    assert s[0] == w[0] && SkipSpace(s) == s;
    assert (" " + s)[1..] == s;
    WordRunOf(w, "\n" + rest);
    assert s == w + ("\n" + rest);
    assert s[..|w|] == w && s[|w|..] == "\n" + rest;
  }

  lemma LineParts(e: Entry, rest: string)
    ensures Line(e) + rest == Decimal(e.rank) + (" " + (e.addr + "\n" + rest))
  {
  }

  lemma ScanLineOf(e: Entry, rest: string)
    requires IsWord(e.addr)
    ensures ScanLine(Line(e) + rest) == Some((e, SkipSpace(rest)))
  {
    LineParts(e, rest);
    var after := " " + (e.addr + "\n" + rest);
    ScanDecimal(e.rank, after);
    ScanWordOf(e.addr, rest);
    ScanParts(Line(e) + rest, e.rank, after, e.addr, "\n" + rest);
    SkipNewline(rest);
  }

  lemma ScanParts(s: string, rank: int, t: string, addr: string, u: string)
    requires ScanInt(s) == Some((rank, t)) && ScanWord(t) == Some((addr, u))
    ensures ScanLine(s) == Some((Entry(rank, addr), SkipSpace(u)))
  {
  }

  lemma SkipNewline(rest: string)
    ensures SkipSpace("\n" + rest) == SkipSpace(rest)
  {
    assert ("\n" + rest)[1..] == rest;
  }

  ghost predicate AllWords(es: seq<Entry>)
  {
    forall i :: 0 <= i < |es| ==> IsWord(es[i].addr)
  }

  lemma PostStartsPlain(es: seq<Entry>)
    ensures SkipSpace(Post(es)) == Post(es)
  {
    if es != [] {
      DecimalStartsPlain(es[0].rank);
      assert Post(es)[0] == Decimal(es[0].rank)[0];
    }
  }

  // What a line looks like.
  lemma LineText()
    ensures Line(Entry(12, "tcp://n1")) == "12 tcp://n1\n"
    ensures Line(Entry(-3, "a")) == "-3 a\n"
  {
  }

  // A scan only ever yields words.
  lemma {:induction false} ScansWords(s: string)
    ensures AllWords(ScanAll(s))
    decreases |s|
  {
    match ScanLine(s)
    case None =>
    case Some((e, rest)) =>
      ScansWords(rest);
      WordRunIsWord(SkipSpace(ScanInt(s).value.1));
  }

  lemma {:induction false} WordRunIsWord(s: string)
    ensures forall i :: 0 <= i < WordRun(s) ==> !IsSpace(s[i])
  {
    if s != "" && !IsSpace(s[0]) {
      WordRunIsWord(s[1..]);
      forall i | 0 <= i < WordRun(s) ensures !IsSpace(s[i]) {
        if i > 0 { assert s[i] == s[1..][i - 1]; }
      }
    }
  }

  // What servers post is what a scan reads back, for any ranks, negative ones included,
  // and any non-empty addresses without white space.
  lemma {:induction false} RoundTrip(es: seq<Entry>)
    requires AllWords(es)
    ensures ScanAll(Post(es)) == es
    decreases |es|
  {
    if es == [] {
      NothingToScan();
    } else {
      ScanLineOf(es[0], Post(es[1..]));
      PostStartsPlain(es[1..]);
      ScanNext(Post(es), es[0], Post(es[1..]));
      RoundTrip(es[1..]);
      assert es == [es[0]] + es[1..];
    }
  }

  lemma NothingToScan()
    ensures ScanAll("") == []
  {
    assert ScanInt("") == None;
  }

  lemma ScanNext(s: string, e: Entry, rest: string)
    requires ScanLine(s) == Some((e, rest))
    ensures ScanAll(s) == [e] + ScanAll(rest)
  {
  }

  // The condition is exact: a posting that holds an empty address, or one with white space
  // in it, is never read back.
  lemma RoundTripIff(es: seq<Entry>)
    ensures ScanAll(Post(es)) == es <==> AllWords(es)
  {
    ScansWords(Post(es));
    if AllWords(es) { RoundTrip(es); }
  }

  // An empty address is not read back: the next line's rank takes its place.
  lemma EmptyAddressIsLost()
    ensures ScanAll(Post([Entry(0, ""), Entry(1, "a")])) != [Entry(0, ""), Entry(1, "a")]
  {
    var es := [Entry(0, ""), Entry(1, "a")];
    RoundTripIff(es);
    assert !IsWord(es[0].addr);
  }

  // Which answer that is.
  lemma {:induction false} FirstIs(es: seq<Entry>, rank: int, addr: string)
    ensures FirstFor(es, rank) == Some(addr) <==>
            exists i :: 0 <= i < |es| && es[i] == Entry(rank, addr) && forall j :: 0 <= j < i ==> es[j].rank != rank
    ensures FirstFor(es, rank) == None <==> forall i :: 0 <= i < |es| ==> es[i].rank != rank
    decreases |es|
  {
    if es != [] {
      var rest := es[1..];
      FirstIs(rest, rank, addr);
      if es[0].rank == rank {
        if es[0].addr == addr { assert es[0] == Entry(rank, addr); }
      } else {
        if i :| 0 <= i < |rest| && rest[i] == Entry(rank, addr) && forall j :: 0 <= j < i ==> rest[j].rank != rank {
          assert es[i + 1] == Entry(rank, addr);
          forall j | 0 <= j < i + 1 ensures es[j].rank != rank { if j > 0 { assert es[j] == rest[j - 1]; } }
        }
        if i :| 0 <= i < |es| && es[i] == Entry(rank, addr) && forall j :: 0 <= j < i ==> es[j].rank != rank {
          assert rest[i - 1] == Entry(rank, addr);
          forall j | 0 <= j < i - 1 ensures rest[j].rank != rank { assert rest[j] == es[j + 1]; }
        }
        assert forall i :: 0 <= i < |rest| ==> rest[i] == es[i + 1];
        if forall i :: 0 <= i < |rest| ==> rest[i].rank != rank {
          forall i | 0 <= i < |es| ensures es[i].rank != rank { if i > 0 { assert es[i] == rest[i - 1]; } }
        }
      }
    }
  }

  // The file only grows: an answer once found stays the answer.
  lemma {:induction false} FirstIsStable(es: seq<Entry>, more: seq<Entry>, rank: int)
    requires FirstFor(es, rank).Some?
    ensures FirstFor(es + more, rank) == FirstFor(es, rank)
    decreases |es|
  {
    if es[0].rank != rank {
      assert (es + more)[1..] == es[1..] + more;
      FirstIsStable(es[1..], more, rank);
    }
  }

  // ------------------------------------------------------------ the lookup

  class AddressBook {
    var addressCache: map<int, string>

    // Every cached address is the first one posted for its rank.
    ghost predicate Agrees(es: seq<Entry>)
      reads this
    {
      forall r :: r in addressCache ==> FirstFor(es, r) == Some(addressCache[r])
    }

    constructor ()
      ensures addressCache == map[]
    {
      addressCache := map[];
    }

    // `file` holds what was posted so far, es; the cache was filled from earlier states
    // of the file, `earlier`.  Hit or miss, the answer is that of a fresh scan.
    method LookupAddr(file: string, rank: int, ghost earlier: seq<Entry>, ghost es: seq<Entry>)
      returns (addr: Option<string>)
      requires AllWords(es) && file == Post(es) && earlier <= es && Agrees(earlier)
      modifies this
      ensures addr == FirstFor(es, rank)
      // the address first posted for the rank, and none only if none was posted
      ensures forall a :: addr == Some(a) <==>
                exists i :: 0 <= i < |es| && es[i] == Entry(rank, a) && forall j :: 0 <= j < i ==> es[j].rank != rank
      ensures addr == None <==> forall i :: 0 <= i < |es| ==> es[i].rank != rank
      ensures Agrees(es)
      ensures addressCache == if addr.Some? then old(addressCache)[rank := addr.value] else old(addressCache)
    {
      RoundTrip(es);
      forall a ensures FirstFor(es, rank) == Some(a) <==>
          exists i :: 0 <= i < |es| && es[i] == Entry(rank, a) && forall j :: 0 <= j < i ==> es[j].rank != rank
      {
        FirstIs(es, rank, a);
      }
      FirstIs(es, rank, "");
      assert es == earlier + es[|earlier|..];
      forall r | r in addressCache ensures FirstFor(es, r) == Some(addressCache[r]) {
        FirstIsStable(earlier, es[|earlier|..], r);
      }
      if rank in addressCache {
        assert addressCache == addressCache[rank := addressCache[rank]];
        return Some(addressCache[rank]);
      }
      var rest := file;
      addr := None;
      while true
        invariant addr == None
        invariant FirstFor(ScanAll(rest), rank) == FirstFor(es, rank)
        decreases |rest|
      {
        var line := ScanLine(rest);
        if line.None? { break; }
        assert ScanAll(rest)[1..] == ScanAll(line.value.1);
        if line.value.0.rank == rank {
          addr := Some(line.value.0.addr);
          break;
        }
        rest := line.value.1;
      }
      if addr.Some? {
        addressCache := addressCache[rank := addr.value];
      }
    }
  }
}
