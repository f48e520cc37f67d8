/** Which entries of a prop decide which field of the stat, and what text in them makes which number. */
module StatFields {
  import opened Options
  import opened CStrings
  import opened Propfind
  import opened FileStat
  import Numerals

  // ---------------------------------------------------------------- numbers in text

  predicate NoDigit(rest: string, base: nat) {
    rest == [] || rest[0] < '0' || rest[0] as int >= '0' as int + base
  }

  /** A number with this sign as a long. */
  function AsLong(sign: string, n: nat): int {
    if sign == "-" then if n > 0x8000_0000_0000_0000 then -0x8000_0000_0000_0000 else -(n as int)
    else if n > 0x7fff_ffff_ffff_ffff then 0x7fff_ffff_ffff_ffff
    else n
  }

  /** A printed number is read through white space and a sign, clamped to a long, and what follows it is left. */
  lemma StrtolReads(ws: string, sign: string, n: nat, rest: string, base: nat)
    requires 2 <= base <= 10 && Blank(ws) && sign in ["", "+", "-"] && NoDigit(rest, base)
    ensures Strtol(ws + (sign + (Numerals.Text(n, base) + rest)), base) == (AsLong(sign, n), rest)
  {
    var digits := Numerals.Text(n, base) + rest;
    Numerals.TextRoundTrip(n, rest, base);
    assert Numerals.IsDigit(digits[0], base);
    hide Numerals.Text, Numerals.Scan;
    SignedFront(sign, digits, base);
    BlankIsSpace(ws);
    hide LStrip, AllSpace, Blank, IsSpace, Numerals.IsDigit;
    LStripSpace(ws, sign + digits);
    StrtolSplit(ws + (sign + digits), sign, digits, n, rest, base);
  }

  lemma StrtolSplit(s: string, sign: string, digits: string, n: nat, rest: string, base: nat)
    requires base <= 10 && sign in ["", "+", "-"] && LStrip(s) == sign + digits && |rest| < |digits|
    requires Numerals.Scan(0, digits, base) == (n, rest)
    requires var t := sign + digits;
             t != [] && (t[0] == '-' <==> sign == "-") && (if t[0] == '-' || t[0] == '+' then t[1..] else t) == digits
    ensures Strtol(s, base) == (AsLong(sign, n), rest)
  {
    hide LStrip, Numerals.Scan, Clamp, AsLong;
    ClampIs(sign, n);
    var t := sign + digits;
    assert t[0] == '-' <==> sign == "-";
  }

  lemma ClampIs(sign: string, n: nat)
    ensures Clamp(if sign == "-" then -(n as int) else n) == AsLong(sign, n)
  {
  }

  lemma SignedFront(sign: string, digits: string, base: nat)
    requires sign in ["", "+", "-"] && base <= 10 && digits != [] && Numerals.IsDigit(digits[0], base)
    ensures var t := sign + digits;
            t != [] && !IsSpace(t[0]) && (t[0] == '-' <==> sign == "-")
            && (if t[0] == '-' || t[0] == '+' then t[1..] else t) == digits
  {
    if sign == "" {
      assert sign + digits == digits;
    } else {
      assert (sign + digits)[0] == sign[0];
    }
  }

  lemma SignedSplit(n: int, rest: string)
    ensures Numerals.Signed(n) + rest == if n < 0 then "-" + (Numerals.Text(-n, 10) + rest) else "" + (Numerals.Text(n, 10) + rest)
  {
    hide Numerals.Text;
  }

  lemma StrtolSigned(ws: string, n: int, rest: string)
    requires Blank(ws) && NoDigit(rest, 10) && -0x8000_0000_0000_0000 <= n <= 0x7fff_ffff_ffff_ffff
    ensures Strtol(ws + (Numerals.Signed(n) + rest), 10) == (n, rest)
  {
    hide Strtol, Numerals.Text, Blank, NoDigit;
    var sign, abs := if n < 0 then "-" else "", if n < 0 then -n else n;
    StrtolReads(ws, sign, abs, rest, 10);
    SignedSplit(n, rest);
  }

  /** Where no number starts, also behind white space and a sign, nothing is read. */
  lemma StrtolReadsNothing(ws: string, sign: string, t: string, base: nat)
    requires base <= 10 && Blank(ws) && sign in ["", "+", "-"] && NoDigit(t, base)
    requires sign == "" && t != [] ==> t[0] !in WHITE && t[0] != '+' && t[0] != '-'
    ensures Strtol(ws + (sign + t), base) == (0, ws + (sign + t))
  {
    var s := sign + t;
    BlankIsSpace(ws);
    NothingFront(sign, t);
    assert Numerals.Scan(0, t, base) == (0, t);
    hide LStrip, AllSpace, Blank, IsSpace, NoDigit, Numerals.Scan, WHITE;
    LStripSpace(ws, s);
    NothingSplit(ws + s, sign, t, base);
  }

  lemma NothingFront(sign: string, t: string)
    requires sign in ["", "+", "-"] && (sign == "" && t != [] ==> t[0] !in WHITE && t[0] != '+' && t[0] != '-')
    ensures var s := sign + t;
            && (s != [] ==> !IsSpace(s[0]))
            && (if s != [] && (s[0] == '-' || s[0] == '+') then s[1..] else s) == t
  {
    if sign == "" {
      assert sign + t == t;
      if t != [] {
        SpaceExactly(t[0]);
      }
    } else {
      assert (sign + t)[0] == sign[0] && (sign + t)[1..] == t;
    }
    hide WHITE;
  }

  lemma NothingSplit(s: string, sign: string, t: string, base: nat)
    requires base <= 10 && LStrip(s) == sign + t && Numerals.Scan(0, t, base) == (0, t)
    requires (if sign + t != [] && ((sign + t)[0] == '-' || (sign + t)[0] == '+') then (sign + t)[1..] else sign + t) == t
    ensures Strtol(s, base) == (0, s)
  {
    hide LStrip, Numerals.Scan;
  }

  // ---------------------------------------------------------------- the entries that decide a field

  datatype Field = Uid | Gid | Mode | Nlink | Size | Rdev | Ctime | Mtime | Atime

  function Get(st: Stat, f: Field): int {
    match f
    case Uid => st.uid
    case Gid => st.gid
    case Mode => st.mode
    case Nlink => st.nlink
    case Size => st.size
    case Rdev => st.rdev
    case Ctime => st.ctime
    case Mtime => st.mtime
    case Atime => st.atime
  }

  predicate Is(e: Node, ns: string, name: string) {
    e.ns == Some(ns) && e.name == name
  }

  /** A resourcetype whose first child is a collection. */
  predicate IsCollection(e: Node) {
    Is(e, "DAV:", "resourcetype") && e.children != [] && e.children[0].name == "collection"
  }

  /** A mode whose number is that of a device, which is followed by the number of the device. */
  predicate IsDeviceMode(e: Node) {
    && Is(e, "NETWORKFS:", "mode") && ContentOf(e).Some?
    && IsDevice(ToUint32(Strtol(ContentOf(e).value, 8).0))
  }

  /** The properties of the server that decide a field. */
  predicate ByServer(e: Node, f: Field) {
    match f
    case Size => Is(e, "DAV:", "getcontentlength")
    case Mode => IsCollection(e)
    case Nlink => IsCollection(e)
    case Ctime => Is(e, "DAV:", "creationdate")
    case Mtime => Is(e, "DAV:", "getlastmodified")
    case _ => false
  }

  /** The properties of this program that decide a field. */
  predicate ByOwn(e: Node, f: Field) {
    match f
    case Uid => Is(e, "NETWORKFS:", "owner")
    case Gid => Is(e, "NETWORKFS:", "owner")
    case Mode => Is(e, "NETWORKFS:", "mode")
    case Rdev => IsDeviceMode(e)
    case Size => Is(e, "NETWORKFS:", "size")
    case Ctime => Is(e, "NETWORKFS:", "time")
    case Mtime => Is(e, "NETWORKFS:", "time")
    case Atime => Is(e, "NETWORKFS:", "time")
    case Nlink => false
  }

  predicate Decides(e: Node, ns: string, f: Field) {
    if ns == DAV then ByServer(e, f) else ByOwn(e, f)
  }

  lemma EntryKeeps(st: Stat, e: Node, ns: string, f: Field, d: Defaults, clock: Clock)
    requires ns == DAV || ns == NETWORKFS
    requires e.ns == Some(ns) && !Decides(e, ns, f) && FileStat.Entry(st, e, ns, d, clock).Some?
    ensures Get(FileStat.Entry(st, e, ns, d, clock).value, f) == Get(st, f)
  {
    hide Strtol, IsDevice, ToUint32;
  }

  lemma {:induction false} LoopKeeps(st: Stat, entries: seq<Node>, ns: string, f: Field, d: Defaults, clock: Clock)
    requires ns == DAV || ns == NETWORKFS
    requires forall i :: 0 <= i < |entries| ==> !Decides(entries[i], ns, f)
    requires Loop(st, entries, ns, d, clock).Some?
    ensures Get(Loop(st, entries, ns, d, clock).value, f) == Get(st, f)
    decreases |entries|
  {
    if entries != [] {
      hide FileStat.Entry, Decides, Get, DAV, NETWORKFS;
      if entries[0].ns.value != ns {
        LoopKeeps(st, entries[1..], ns, f, d, clock);
      } else {
        var st' := FileStat.Entry(st, entries[0], ns, d, clock).value;
        assert !Decides(entries[0], ns, f);
        EntryKeeps(st, entries[0], ns, f, d, clock);
        LoopKeeps(st', entries[1..], ns, f, d, clock);
      }
    }
  }

  /** After the last entry that decides a field, the field is what that entry has put there. */
  lemma {:induction false} LoopLast(st: Stat, entries: seq<Node>, k: nat, ns: string, f: Field, d: Defaults, clock: Clock)
      returns (before: Stat)
    requires ns == DAV || ns == NETWORKFS
    requires k < |entries| && entries[k].ns == Some(ns)
    requires forall i :: k < i < |entries| ==> !Decides(entries[i], ns, f)
    requires Loop(st, entries, ns, d, clock).Some?
    ensures FileStat.Entry(before, entries[k], ns, d, clock).Some?
    ensures Get(Loop(st, entries, ns, d, clock).value, f) == Get(FileStat.Entry(before, entries[k], ns, d, clock).value, f)
    decreases k
  {
    hide FileStat.Entry, Decides, Get, DAV, NETWORKFS;
    var e, rest := entries[0], entries[1..];
    if k == 0 {
      before := st;
      LoopKeeps(FileStat.Entry(st, e, ns, d, clock).value, rest, ns, f, d, clock);
    } else {
      assert rest[k - 1] == entries[k];
      var st' := if e.ns.value != ns then st else FileStat.Entry(st, e, ns, d, clock).value;
      before := LoopLast(st', rest, k - 1, ns, f, d, clock);
    }
  }

  /** Position k is the last that decides the field among the server's properties, or among this program's own. */
  predicate LastByServer(entries: seq<Node>, k: nat, f: Field) {
    k < |entries| && ByServer(entries[k], f) && forall i :: k < i < |entries| ==> !ByServer(entries[i], f)
  }

  predicate LastByOwn(entries: seq<Node>, k: nat, f: Field) {
    k < |entries| && ByOwn(entries[k], f) && forall i :: k < i < |entries| ==> !ByOwn(entries[i], f)
  }

  predicate NoneByServer(entries: seq<Node>, f: Field) {
    forall i :: 0 <= i < |entries| ==> !ByServer(entries[i], f)
  }

  predicate NoneByOwn(entries: seq<Node>, f: Field) {
    forall i :: 0 <= i < |entries| ==> !ByOwn(entries[i], f)
  }

  function Start(d: Defaults): Stat {
    Stat(d.uid, d.gid, d.fileMode, 1, 0, 0, 0, 0, 0)
  }

  lemma OwnNamespace(e: Node, f: Field)
    ensures ByOwn(e, f) ==> e.ns == Some(NETWORKFS)
    ensures ByServer(e, f) ==> e.ns == Some(DAV)
    ensures Decides(e, NETWORKFS, f) == ByOwn(e, f) && Decides(e, DAV, f) == ByServer(e, f)
  {
    assert DAV[0] != NETWORKFS[0];
  }

  /** The last own property that decides a field has the say. */
  lemma DecidedByOwn(entries: seq<Node>, k: nat, f: Field, d: Defaults, clock: Clock) returns (before: Stat)
    requires StatOf(entries, d, clock).Some? && LastByOwn(entries, k, f)
    ensures OwnEntry(before, entries[k]).Some?
    ensures Get(StatOf(entries, d, clock).value, f) == Get(OwnEntry(before, entries[k]).value, f)
  {
    forall i | k <= i < |entries|
      ensures Decides(entries[i], NETWORKFS, f) == ByOwn(entries[i], f)
    {
      OwnNamespace(entries[i], f);
    }
    OwnNamespace(entries[k], f);
    var first := Loop(Start(d), entries, DAV, d, clock).value;
    hide Decides, ByOwn, Get, OwnEntry, Loop;
    before := LoopLast(first, entries, k, NETWORKFS, f, d, clock);
    assert DAV[0] != NETWORKFS[0];
  }

  lemma AfterServer(entries: seq<Node>, f: Field, d: Defaults, clock: Clock)
    requires StatOf(entries, d, clock).Some? && NoneByOwn(entries, f)
    ensures Loop(Start(d), entries, DAV, d, clock).Some?
    ensures Get(StatOf(entries, d, clock).value, f) == Get(Loop(Start(d), entries, DAV, d, clock).value, f)
  {
    forall i | 0 <= i < |entries|
      ensures !Decides(entries[i], NETWORKFS, f)
    {
      OwnNamespace(entries[i], f);
    }
    var first := Loop(Start(d), entries, DAV, d, clock).value;
    hide Decides, ByOwn, Get, Loop;
    LoopKeeps(first, entries, NETWORKFS, f, d, clock);
  }

  /** Without an own property, the last one of the server has it. */
  lemma DecidedByServer(entries: seq<Node>, k: nat, f: Field, d: Defaults, clock: Clock) returns (before: Stat)
    requires StatOf(entries, d, clock).Some? && NoneByOwn(entries, f) && LastByServer(entries, k, f)
    ensures DavEntry(before, entries[k], d, clock).Some?
    ensures Get(StatOf(entries, d, clock).value, f) == Get(DavEntry(before, entries[k], d, clock).value, f)
  {
    AfterServer(entries, f, d, clock);
    forall i | k <= i < |entries|
      ensures Decides(entries[i], DAV, f) == ByServer(entries[i], f)
    {
      OwnNamespace(entries[i], f);
    }
    OwnNamespace(entries[k], f);
    hide Decides, ByServer, Get, DavEntry, Loop, StatOf;
    before := LoopLast(Start(d), entries, k, DAV, f, d, clock);
  }

  lemma DecidedByNobody(entries: seq<Node>, f: Field, d: Defaults, clock: Clock)
    requires StatOf(entries, d, clock).Some? && NoneByOwn(entries, f) && NoneByServer(entries, f)
    ensures Get(StatOf(entries, d, clock).value, f) == Get(Start(d), f)
  {
    AfterServer(entries, f, d, clock);
    forall i | 0 <= i < |entries|
      ensures !Decides(entries[i], DAV, f)
    {
      OwnNamespace(entries[i], f);
    }
    hide Decides, ByServer, Get, Loop, StatOf;
    LoopKeeps(Start(d), entries, DAV, f, d, clock);
  }

  // ---------------------------------------------------------------- what the fields are

  /** The first child of an entry holds this text. */
  predicate Holds(e: Node, text: string) {
    e.children != [] && e.children[0].content == Some(text)
  }

  /** Without an own mode, a directory is what has a collection in some resourcetype, whatever the others say. */
  lemma TypeDecides(entries: seq<Node>, d: Defaults, clock: Clock)
    requires StatOf(entries, d, clock).Some?
    ensures var st := StatOf(entries, d, clock).value;
            var collection := exists i :: 0 <= i < |entries| && IsCollection(entries[i]);
            && st.nlink == (if collection then 2 else 1)
            && (NoneByOwn(entries, Mode) ==> st.mode == if collection then d.dirMode else d.fileMode)
  {
    assert NoneByOwn(entries, Nlink);
    if NoneByServer(entries, Nlink) {
      forall i | 0 <= i < |entries|
        ensures !IsCollection(entries[i])
      {
        assert !ByServer(entries[i], Nlink);
      }
      assert NoneByServer(entries, Mode);
      hide StatOf, IsCollection, ByOwn;
      DecidedByNobody(entries, Nlink, d, clock);
      if NoneByOwn(entries, Mode) {
        DecidedByNobody(entries, Mode, d, clock);
      }
    } else {
      var k := LastCollection(entries);
      TypeSays(entries, k, d, clock);
    }
  }

  lemma {:induction false} LastCollection(entries: seq<Node>) returns (k: nat)
    requires exists i :: 0 <= i < |entries| && IsCollection(entries[i])
    ensures k < |entries| && IsCollection(entries[k]) && forall i :: k < i < |entries| ==> !IsCollection(entries[i])
  {
    var last := |entries| - 1;
    if IsCollection(entries[last]) {
      k := last;
    } else {
      k := LastCollection(entries[..last]);
    }
  }

  lemma TypeSays(entries: seq<Node>, k: nat, d: Defaults, clock: Clock)
    requires StatOf(entries, d, clock).Some? && LastByServer(entries, k, Mode)
    ensures StatOf(entries, d, clock).value.nlink == 2
    ensures NoneByOwn(entries, Mode) ==> StatOf(entries, d, clock).value.mode == d.dirMode
  {
    assert LastByServer(entries, k, Nlink) && NoneByOwn(entries, Nlink);
    hide StatOf, ByOwn, Strtol;
    var b1 := DecidedByServer(entries, k, Nlink, d, clock);
    if NoneByOwn(entries, Mode) {
      var b2 := DecidedByServer(entries, k, Mode, d, clock);
    }
  }

  lemma OwnEntryIs(st: Stat, e: Node, text: string)
    requires Holds(e, text)
    ensures Is(e, "NETWORKFS:", "mode") ==> OwnEntry(st, e) == Some(SetMode(st, text))
    ensures Is(e, "NETWORKFS:", "size") ==> OwnEntry(st, e) == Some(st.(size := Strtol(text, 10).0))
    ensures Is(e, "NETWORKFS:", "owner") ==> OwnEntry(st, e) == Some(SetOwner(st, text))
    ensures Is(e, "NETWORKFS:", "time") ==> OwnEntry(st, e) == Some(SetTimes(st, text))
  {
    hide SetMode, SetOwner, SetTimes, Strtol;
  }

  /** An own size counts, whatever length the server gives. */
  lemma OwnSizeDecides(entries: seq<Node>, k: nat, n: int, rest: string, d: Defaults, clock: Clock)
    requires StatOf(entries, d, clock).Some? && LastByOwn(entries, k, Size) && Holds(entries[k], Numerals.Signed(n) + rest)
    requires NoDigit(rest, 10) && -0x8000_0000_0000_0000 <= n <= 0x7fff_ffff_ffff_ffff
    ensures StatOf(entries, d, clock).value.size == n
  {
    var before := DecidedByOwn(entries, k, Size, d, clock);
    OwnEntryIs(before, entries[k], Numerals.Signed(n) + rest);
    assert "" + (Numerals.Signed(n) + rest) == Numerals.Signed(n) + rest;
    StrtolSigned("", n, rest);
    hide StatOf, OwnEntry, Strtol, Numerals.Signed;
  }

  /** Without an own size, the last length the server gives; without one, 0. */
  lemma LengthDecides(entries: seq<Node>, k: nat, n: int, rest: string, d: Defaults, clock: Clock)
    requires StatOf(entries, d, clock).Some? && NoneByOwn(entries, Size)
    requires NoDigit(rest, 10) && -0x8000_0000_0000_0000 <= n <= 0x7fff_ffff_ffff_ffff
    ensures LastByServer(entries, k, Size) && Holds(entries[k], Numerals.Signed(n) + rest) ==> StatOf(entries, d, clock).value.size == n
    ensures NoneByServer(entries, Size) ==> StatOf(entries, d, clock).value.size == 0
  {
    if LastByServer(entries, k, Size) && Holds(entries[k], Numerals.Signed(n) + rest) {
      var before := DecidedByServer(entries, k, Size, d, clock);
      assert "" + (Numerals.Signed(n) + rest) == Numerals.Signed(n) + rest;
      StrtolSigned("", n, rest);
      hide StatOf, LastByServer, NoneByServer, NoneByOwn, Strtol;
      assert Is(entries[k], "DAV:", "getcontentlength");
    }
    if NoneByServer(entries, Size) {
      DecidedByNobody(entries, Size, d, clock);
      hide StatOf, NoneByServer, NoneByOwn;
    }
  }

  /** The last mode counts, and for a device the number behind it. */
  lemma ModeDecides(entries: seq<Node>, k: nat, mode: nat, rest: string, d: Defaults, clock: Clock)
    requires StatOf(entries, d, clock).Some? && LastByOwn(entries, k, Mode)
    requires Holds(entries[k], Numerals.Text(mode, 8) + rest) && NoDigit(rest, 8) && mode < 0x1_0000_0000
    ensures StatOf(entries, d, clock).value.mode == mode
  {
    var before := DecidedByOwn(entries, k, Mode, d, clock);
    OwnEntryIs(before, entries[k], Numerals.Text(mode, 8) + rest);
    StrtolMode(mode, rest);
    SetModeIs(before, Numerals.Text(mode, 8) + rest, mode, rest);
    hide StatOf, OwnEntry, SetMode, Strtol;
  }

  lemma SetModeIs(st: Stat, text: string, mode: nat, rest: string)
    requires Strtol(text, 8) == (mode, rest) && mode < 0x1_0000_0000
    ensures SetMode(st, text).mode == mode && (IsDevice(mode) ==> SetMode(st, text).rdev == Strtol(rest, 10).0)
  {
    hide Strtol, IsDevice;
  }

  lemma StrtolMode(mode: nat, rest: string)
    requires NoDigit(rest, 8) && mode < 0x1_0000_0000
    ensures Strtol(Numerals.Text(mode, 8) + rest, 8) == (mode, rest)
  {
    StrtolReads("", "", mode, rest, 8);
    assert "" + ("" + (Numerals.Text(mode, 8) + rest)) == Numerals.Text(mode, 8) + rest;
    hide Strtol, Numerals.Text;
  }

  lemma KindOf(high: nat, kind: nat, low: nat)
    requires kind < 16 && low < 4096
    ensures IsDevice(high * 65536 + kind * 4096 + low) <==> kind == 2 || kind == 6
  {
    assert (high * 65536 + kind * 4096 + low) / 0x1000 == high * 16 + kind;
  }

  lemma DeviceText(e: Node, mode: nat, rest: string)
    requires Is(e, "NETWORKFS:", "mode") && Holds(e, Numerals.Text(mode, 8) + rest)
    requires NoDigit(rest, 8) && mode < 0x1_0000_0000
    ensures IsDeviceMode(e) <==> IsDevice(mode)
  {
    hide Strtol, IsDevice, ToUint32, Numerals.Text, NoDigit;
    StrtolMode(mode, rest);
    SmallStays(mode);
  }

  lemma SmallStays(n: nat)
    requires n < 0x1_0000_0000
    ensures ToUint32(n) == n
  {
  }

  /** Which modes are of devices: character and block special files, 02 and 06 in front of the last four octal digits. */
  lemma DeviceExactly(e: Node, high: nat, kind: nat, low: nat, rest: string)
    requires kind < 16 && low < 4096 && high < 65536 && NoDigit(rest, 8) && Is(e, "NETWORKFS:", "mode")
    requires Holds(e, Numerals.Text(high * 65536 + kind * 4096 + low, 8) + rest)
    ensures IsDeviceMode(e) <==> kind == 2 || kind == 6
  {
    KindOf(high, kind, low);
    hide IsDevice, Numerals.Text, IsDeviceMode;
    DeviceText(e, high * 65536 + kind * 4096 + low, rest);
  }

  /** The number of the device is the one behind the last mode that is of a device; without such a mode it is 0. */
  lemma DeviceDecides(entries: seq<Node>, k: nat, mode: nat, gap: string, n: int, rest: string, d: Defaults, clock: Clock)
    requires StatOf(entries, d, clock).Some? && mode < 0x1_0000_0000
    requires Blank(gap) && gap != [] && NoDigit(rest, 10) && -0x8000_0000_0000_0000 <= n <= 0x7fff_ffff_ffff_ffff
    ensures LastByOwn(entries, k, Rdev) && Holds(entries[k], Numerals.Text(mode, 8) + (gap + (Numerals.Signed(n) + rest)))
            ==> StatOf(entries, d, clock).value.rdev == n
    ensures NoneByOwn(entries, Rdev) ==> StatOf(entries, d, clock).value.rdev == 0
  {
    hide StatOf, IsDeviceMode, Holds;
    if NoneByOwn(entries, Rdev) {
      assert NoneByServer(entries, Rdev);
      DecidedByNobody(entries, Rdev, d, clock);
    }
    if LastByOwn(entries, k, Rdev) && Holds(entries[k], Numerals.Text(mode, 8) + (gap + (Numerals.Signed(n) + rest))) {
      DeviceSays(entries, k, mode, gap, n, rest, d, clock);
    }
  }

  lemma DeviceSays(entries: seq<Node>, k: nat, mode: nat, gap: string, n: int, rest: string, d: Defaults, clock: Clock)
    requires StatOf(entries, d, clock).Some? && mode < 0x1_0000_0000
    requires Blank(gap) && gap != [] && NoDigit(rest, 10) && -0x8000_0000_0000_0000 <= n <= 0x7fff_ffff_ffff_ffff
    requires LastByOwn(entries, k, Rdev) && Holds(entries[k], Numerals.Text(mode, 8) + (gap + (Numerals.Signed(n) + rest)))
    ensures StatOf(entries, d, clock).value.rdev == n
  {
    var tail := gap + (Numerals.Signed(n) + rest);
    var text := Numerals.Text(mode, 8) + tail;
    var before := DecidedByOwn(entries, k, Rdev, d, clock);
    OwnEntryIs(before, entries[k], text);
    BlankNoDigit(gap, Numerals.Signed(n) + rest);
    StrtolMode(mode, tail);
    StrtolSigned(gap, n, rest);
    SetModeIs(before, text, mode, tail);
    hide StatOf, OwnEntry, SetMode, Strtol, Numerals.Signed, IsDevice, Blank, NoDigit;
  }

  lemma BlankNoDigit(gap: string, rest: string)
    requires Blank(gap) && gap != []
    ensures NoDigit(gap + rest, 8) && NoDigit(gap + rest, 10)
  {
    SpaceExactly(gap[0]);
  }

  /** A 32-bit number, also when it was printed as a negative one. */
  function AsUint32(n: int): int {
    if n < 0 then n + 0x1_0000_0000 else n
  }

  lemma SetOwnerIs(st: Stat, text: string, u: int, tail: string, g: int)
    requires Strtol(text, 10) == (u, tail) && Strtol(tail, 10).0 == g
    requires -0x8000_0000 <= u < 0x1_0000_0000 && -0x8000_0000 <= g < 0x1_0000_0000
    ensures SetOwner(st, text).uid == AsUint32(u) && SetOwner(st, text).gid == AsUint32(g)
  {
    hide Strtol;
  }

  /** The last owner counts: its user, and its group when only white space is between them. */
  lemma OwnerDecides(entries: seq<Node>, k: nat, u: int, gap: string, g: int, rest: string, d: Defaults, clock: Clock)
    requires StatOf(entries, d, clock).Some? && LastByOwn(entries, k, Uid) && Blank(gap) && gap != []
    requires Holds(entries[k], Numerals.Signed(u) + (gap + (Numerals.Signed(g) + rest))) && NoDigit(rest, 10)
    requires -0x8000_0000 <= u < 0x1_0000_0000 && -0x8000_0000 <= g < 0x1_0000_0000
    ensures StatOf(entries, d, clock).value.uid == AsUint32(u) && StatOf(entries, d, clock).value.gid == AsUint32(g)
  {
    var tail := gap + (Numerals.Signed(g) + rest);
    BlankNoDigit(gap, Numerals.Signed(g) + rest);
    StrtolSigned(gap, g, rest);
    hide StatOf, Strtol, Numerals.Signed, Blank, NoDigit, AsUint32;
    OwnerSays(entries, k, u, tail, g, d, clock);
  }

  /** Behind anything else, such as a colon, the group is read as 0. */
  lemma GroupUnread(entries: seq<Node>, k: nat, u: int, tail: string, d: Defaults, clock: Clock)
    requires StatOf(entries, d, clock).Some? && LastByOwn(entries, k, Uid)
    requires Holds(entries[k], Numerals.Signed(u) + tail) && NoDigit(tail, 10) && -0x8000_0000 <= u < 0x1_0000_0000
    requires tail != [] ==> tail[0] !in WHITE && tail[0] != '+' && tail[0] != '-'
    ensures StatOf(entries, d, clock).value.uid == AsUint32(u) && StatOf(entries, d, clock).value.gid == 0
  {
    StrtolReadsNothing("", "", tail, 10);
    assert "" + ("" + tail) == tail;
    hide StatOf, Strtol, Numerals.Signed, WHITE, NoDigit;
    OwnerSays(entries, k, u, tail, 0, d, clock);
  }

  lemma OwnerSays(entries: seq<Node>, k: nat, u: int, tail: string, g: int, d: Defaults, clock: Clock)
    requires StatOf(entries, d, clock).Some? && LastByOwn(entries, k, Uid)
    requires Holds(entries[k], Numerals.Signed(u) + tail) && NoDigit(tail, 10) && Strtol(tail, 10).0 == g
    requires -0x8000_0000 <= u < 0x1_0000_0000 && -0x8000_0000 <= g < 0x1_0000_0000
    ensures StatOf(entries, d, clock).value.uid == AsUint32(u) && StatOf(entries, d, clock).value.gid == AsUint32(g)
  {
    var text := Numerals.Signed(u) + tail;
    assert LastByOwn(entries, k, Gid);
    var b1 := DecidedByOwn(entries, k, Uid, d, clock);
    var b2 := DecidedByOwn(entries, k, Gid, d, clock);
    OwnEntryIs(b1, entries[k], text);
    OwnEntryIs(b2, entries[k], text);
    assert "" + text == text;
    hide StatOf, OwnEntry, SetOwner, Strtol, Numerals.Signed, NoDigit, AsUint32;
    StrtolSigned("", u, tail);
    SetOwnerIs(b1, text, u, tail, g);
    SetOwnerIs(b2, text, u, tail, g);
  }

  /** The last own time gives all three times, in this order. */
  lemma TimesDecide(entries: seq<Node>, k: nat, c: int, m: int, a: int, rest: string, d: Defaults, clock: Clock)
    requires StatOf(entries, d, clock).Some? && LastByOwn(entries, k, Atime) && NoDigit(rest, 10)
    requires Holds(entries[k], Numerals.Signed(c) + (" " + (Numerals.Signed(m) + (" " + (Numerals.Signed(a) + rest)))))
    requires forall t :: t in [c, m, a] ==> -0x8000_0000_0000_0000 <= t <= 0x7fff_ffff_ffff_ffff
    ensures var st := StatOf(entries, d, clock).value; st.ctime == c && st.mtime == m && st.atime == a
  {
    var third := " " + (Numerals.Signed(a) + rest);
    var second := " " + (Numerals.Signed(m) + third);
    assert LastByOwn(entries, k, Ctime) && LastByOwn(entries, k, Mtime);
    var b1 := DecidedByOwn(entries, k, Ctime, d, clock);
    var b2 := DecidedByOwn(entries, k, Mtime, d, clock);
    var b3 := DecidedByOwn(entries, k, Atime, d, clock);
    var text := Numerals.Signed(c) + second;
    OwnEntryIs(b1, entries[k], text);
    OwnEntryIs(b2, entries[k], text);
    OwnEntryIs(b3, entries[k], text);
    assert c in [c, m, a] && m in [c, m, a] && a in [c, m, a];
    StrtolThree(c, m, a, rest);
    SetTimesIs(b1, text, c, second, m, third, a);
    SetTimesIs(b2, text, c, second, m, third, a);
    SetTimesIs(b3, text, c, second, m, third, a);
    hide StatOf, OwnEntry, SetTimes, Strtol, Numerals.Signed;
  }

  lemma SetTimesIs(st: Stat, text: string, c: int, second: string, m: int, third: string, a: int)
    requires Strtol(text, 10) == (c, second) && Strtol(second, 10) == (m, third) && Strtol(third, 10).0 == a
    ensures SetTimes(st, text) == st.(ctime := c, mtime := m, atime := a)
  {
    hide Strtol;
  }

  lemma StrtolThree(c: int, m: int, a: int, rest: string)
    requires NoDigit(rest, 10) && -0x8000_0000_0000_0000 <= c <= 0x7fff_ffff_ffff_ffff
    requires -0x8000_0000_0000_0000 <= m <= 0x7fff_ffff_ffff_ffff && -0x8000_0000_0000_0000 <= a <= 0x7fff_ffff_ffff_ffff
    ensures var third := " " + (Numerals.Signed(a) + rest); var second := " " + (Numerals.Signed(m) + third);
            Strtol(Numerals.Signed(c) + second, 10) == (c, second) && Strtol(second, 10) == (m, third) && Strtol(third, 10).0 == a
  {
    var third := " " + (Numerals.Signed(a) + rest);
    var second := " " + (Numerals.Signed(m) + third);
    assert Blank(" ") && Blank("") by {
      SpaceExactly(' ');
    }
    assert "" + (Numerals.Signed(c) + second) == Numerals.Signed(c) + second;
    hide Strtol, Numerals.Signed;
    BlankNoDigit(" ", Numerals.Signed(m) + third);
    BlankNoDigit(" ", Numerals.Signed(a) + rest);
    StrtolSigned("", c, second);
    StrtolSigned(" ", m, third);
    StrtolSigned(" ", a, rest);
  }

  /** Without an own time, the server's dates, as far as it gives them. */
  lemma DatesDecide(entries: seq<Node>, k: nat, d: Defaults, clock: Clock)
    requires StatOf(entries, d, clock).Some? && NoneByOwn(entries, Atime)
    ensures var st := StatOf(entries, d, clock).value;
            && (LastByServer(entries, k, Ctime) ==> st.ctime == clock(entries[k]))
            && (LastByServer(entries, k, Mtime) ==> st.mtime == clock(entries[k]))
            && (NoneByServer(entries, Ctime) ==> st.ctime == 0)
            && (NoneByServer(entries, Mtime) ==> st.mtime == 0)
            && st.atime == 0
  {
    assert NoneByOwn(entries, Ctime) && NoneByOwn(entries, Mtime) && NoneByServer(entries, Atime);
    DecidedByNobody(entries, Atime, d, clock);
    DateDecides(entries, k, Ctime, d, clock);
    DateDecides(entries, k, Mtime, d, clock);
    hide StatOf, NoneByOwn, NoneByServer, LastByServer;
  }

  lemma DateDecides(entries: seq<Node>, k: nat, f: Field, d: Defaults, clock: Clock)
    requires StatOf(entries, d, clock).Some? && NoneByOwn(entries, f) && (f == Ctime || f == Mtime)
    ensures LastByServer(entries, k, f) ==> Get(StatOf(entries, d, clock).value, f) == clock(entries[k])
    ensures NoneByServer(entries, f) ==> Get(StatOf(entries, d, clock).value, f) == 0
  {
    if LastByServer(entries, k, f) {
      var before := DecidedByServer(entries, k, f, d, clock);
      hide StatOf, NoneByOwn, NoneByServer;
    }
    if NoneByServer(entries, f) {
      DecidedByNobody(entries, f, d, clock);
    }
  }

  /** Without an own owner, the user and the group of the options. */
  lemma OwnerStays(entries: seq<Node>, d: Defaults, clock: Clock)
    requires StatOf(entries, d, clock).Some? && NoneByOwn(entries, Uid)
    ensures StatOf(entries, d, clock).value.uid == d.uid && StatOf(entries, d, clock).value.gid == d.gid
  {
    assert NoneByOwn(entries, Gid) && NoneByServer(entries, Uid) && NoneByServer(entries, Gid);
    DecidedByNobody(entries, Uid, d, clock);
    DecidedByNobody(entries, Gid, d, clock);
    hide StatOf;
  }

  // ---------------------------------------------------------------- chmod and chown, and then stat

  /** What dav_chmod writes: %o into a buffer of 19 characters. */
  function ModeText(mode: nat): string {
    Snprintf(19, Numerals.Text(mode, 8))
  }

  lemma PowersOfEight()
    ensures Numerals.Power(8, 11) == 0x2_0000_0000
  {
    assert Numerals.Power(8, 2) == 8 * (8 * Numerals.Power(8, 0));
    Numerals.PowerSum(8, 2, 2);
    Numerals.PowerSum(8, 4, 4);
    Numerals.PowerSum(8, 8, 2);
    assert Numerals.Power(8, 11) == 8 * Numerals.Power(8, 10);
  }

  lemma ModeTextWhole(mode: nat)
    requires mode < 0x1_0000_0000
    ensures ModeText(mode) == Numerals.Text(mode, 8)
  {
    PowersOfEight();
    Numerals.DigitCount(mode, 8, 11);
  }

  /** Whatever else the response holds, a mode is read back as it was set, and the number of a device is lost. */
  lemma ChmodThenStat(entries: seq<Node>, k: nat, mode: nat, d: Defaults, clock: Clock)
    requires StatOf(entries, d, clock).Some? && LastByOwn(entries, k, Mode)
    requires Holds(entries[k], ModeText(mode)) && mode < 0x1_0000_0000
    ensures StatOf(entries, d, clock).value.mode == mode
    ensures IsDeviceMode(entries[k]) ==> StatOf(entries, d, clock).value.rdev == 0
  {
    hide StatOf, ModeText, Numerals.Text, IsDeviceMode;
    ModeTextWhole(mode);
    assert Numerals.Text(mode, 8) + "" == Numerals.Text(mode, 8);
    ModeDecides(entries, k, mode, "", d, clock);
    if IsDeviceMode(entries[k]) {
      NumberMissing(entries, k, mode, d, clock);
    }
  }

  lemma NumberMissing(entries: seq<Node>, k: nat, mode: nat, d: Defaults, clock: Clock)
    requires StatOf(entries, d, clock).Some? && LastByOwn(entries, k, Mode) && IsDeviceMode(entries[k])
    requires Holds(entries[k], Numerals.Text(mode, 8) + "") && mode < 0x1_0000_0000
    ensures StatOf(entries, d, clock).value.rdev == 0
  {
    hide StatOf, OwnEntry, SetMode, Strtol, IsDevice, ToUint32, IsDeviceMode, Numerals.Text;
    OthersAreNoDevice(entries, k);
    DeviceText(entries[k], mode, "");
    var before := DecidedByOwn(entries, k, Rdev, d, clock);
    OwnEntryIs(before, entries[k], Numerals.Text(mode, 8) + "");
    StrtolMode(mode, "");
    StrtolReadsNothing("", "", "", 10);
    assert "" + ("" + "") == "";
    SetModeIs(before, Numerals.Text(mode, 8) + "", mode, "");
  }

  lemma OthersAreNoDevice(entries: seq<Node>, k: nat)
    requires LastByOwn(entries, k, Mode) && IsDeviceMode(entries[k])
    ensures LastByOwn(entries, k, Rdev)
  {
    hide IsDevice, ToUint32, Strtol, ContentOf;
  }

  /** What dav_chown writes: %d:%d into a buffer of 22 characters, with the 32-bit numbers taken as signed. */
  function OwnerText(uid: nat, gid: nat): string {
    Snprintf(22, Numerals.Signed(AsInt32(uid)) + ":" + Numerals.Signed(AsInt32(gid)))
  }

  function AsInt32(n: nat): int {
    if n < 0x8000_0000 then n else n - 0x1_0000_0000
  }

  lemma SignedLength(n: int)
    requires -0x8000_0000 <= n < 0x8000_0000
    ensures |Numerals.Signed(n)| <= 11
  {
    assert Numerals.Power(10, 2) == 10 * (10 * Numerals.Power(10, 0));
    Numerals.PowerSum(10, 2, 2);
    Numerals.PowerSum(10, 4, 4);
    Numerals.PowerSum(10, 8, 2);
    Numerals.DigitCount(if n < 0 then -n else n, 10, 10);
    hide Numerals.Text, Numerals.Power;
  }

  /** The user is always whole, with the colon behind it; the group may be cut. */
  lemma OwnerTextFront(uid: nat, gid: nat) returns (tail: string)
    requires uid < 0x1_0000_0000 && gid < 0x1_0000_0000
    ensures tail != [] && tail[0] == ':' && OwnerText(uid, gid) == Numerals.Signed(AsInt32(uid)) + tail
  {
    var u, rest := Numerals.Signed(AsInt32(uid)), ":" + Numerals.Signed(AsInt32(gid));
    SignedLength(AsInt32(uid));
    hide Numerals.Signed, AsInt32;
    assert u + ":" + Numerals.Signed(AsInt32(gid)) == u + rest;
    tail := if |u + rest| < 22 then rest else rest[..21 - |u|];
    assert (u + rest)[..|u|] == u;
  }

  /** Whatever else the response holds, the user is read back as it was set, and the group as 0. */
  lemma ChownThenStat(entries: seq<Node>, k: nat, uid: nat, gid: nat, d: Defaults, clock: Clock)
    requires StatOf(entries, d, clock).Some? && LastByOwn(entries, k, Uid)
    requires Holds(entries[k], OwnerText(uid, gid)) && uid < 0x1_0000_0000 && gid < 0x1_0000_0000
    ensures var st := StatOf(entries, d, clock).value; st.uid == uid && (st.gid == gid <==> gid == 0)
  {
    var tail := OwnerTextFront(uid, gid);
    SpaceExactly(':');
    hide StatOf, OwnerText, Numerals.Signed, WHITE;
    GroupUnread(entries, k, AsInt32(uid), tail, d, clock);
  }
}
