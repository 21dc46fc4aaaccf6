/**
 Paths as components: what a local path is on the network and what a network path is locally,
 for any conversion of single components.
 */
module PathSpec {
  import opened Integers
  import opened Options

  const SLASH: byte := 0x2f

  /** How one component is converted, with or without the SFM mappings. */
  datatype Codec = Codec(
    enc: (seq<byte>, bool) -> Option<seq<uint16>>,
    dec: (seq<uint16>, bool) -> Option<seq<byte>>)

  datatype Setting = Setting(codec: Codec, sfm: bool, delimiter: uint16)

  predicate Plain(s: seq<byte>) {
    forall i :: 0 <= i < |s| ==> s[i] != 0 && s[i] != SLASH
  }

  /** Dot and dotdot never get the SFM mappings. */
  predicate Mapped(s: seq<byte>, sfm: bool) {
    sfm && s != [0x2e] && s != [0x2e, 0x2e]
  }

  function Encoded(cfg: Setting, s: seq<byte>): Option<seq<uint16>> {
    cfg.codec.enc(s, Mapped(s, cfg.sfm))
  }

  function Decoded(cfg: Setting, w: seq<uint16>): Option<seq<byte>> {
    cfg.codec.dec(w, cfg.sfm)
  }

  // ----- Finding -----

  /** The first place of `x`, or the length. */
  function Find<T(==)>(s: seq<T>, x: T): (n: nat)
    ensures n <= |s|
    ensures forall i :: 0 <= i < n ==> s[i] != x
    ensures n < |s| ==> s[n] == x
  {
    if s == [] || s[0] == x then 0 else 1 + Find(s[1..], x)
  }

  lemma {:induction false} FindIs<T>(s: seq<T>, x: T, n: nat)
    requires n <= |s| && (forall i :: 0 <= i < n ==> s[i] != x) && (n < |s| ==> s[n] == x)
    ensures Find(s, x) == n
  {
    if n > 0 {
      FindIs(s[1..], x, n - 1);
    }
  }

  // ----- Both directions -----

  /** What goes before a result, if there is one. */
  function Prefixed<T>(before: seq<T>, o: Option<seq<T>>): Option<seq<T>> {
    if o.None? then None else Some(before + o.value)
  }

  function NetOf(cfg: Setting, p: seq<byte>): Option<seq<uint16>>
    decreases |p|
  {
    var i := Find(p, SLASH);
    var w := Encoded(cfg, p[..i]);
    if w.None? || i == |p| then w
    else Prefixed(w.value + [cfg.delimiter], NetOf(cfg, p[i + 1..]))
  }

  function PathOf(cfg: Setting, n: seq<uint16>): Option<seq<byte>>
    decreases |n|
  {
    var i := Find(n, cfg.delimiter);
    var s := Decoded(cfg, n[..i]);
    if s.None? || i == |n| then s
    else Prefixed(s.value + [SLASH], PathOf(cfg, n[i + 1..]))
  }

  lemma PathOfLast(cfg: Setting, w: seq<uint16>)
    requires cfg.delimiter !in w
    ensures PathOf(cfg, w) == Decoded(cfg, w)
  {
    FindIs(w, cfg.delimiter, |w|);
    assert w[..|w|] == w;
  }

  lemma PathOfFirst(cfg: Setting, w: seq<uint16>, rest: seq<uint16>)
    requires cfg.delimiter !in w && Decoded(cfg, w).Some?
    ensures PathOf(cfg, w + [cfg.delimiter] + rest)
         == Prefixed(Decoded(cfg, w).value + [SLASH], PathOf(cfg, rest))
  {
    var n := w + [cfg.delimiter] + rest;
    FindIs(n, cfg.delimiter, |w|);
    assert n[..|w|] == w && n[|w| + 1..] == rest;
  }

  // ----- Component by component -----

  /** The components with the separator between them. */
  function Join<T>(cs: seq<seq<T>>, x: T): seq<T>
    requires cs != []
  {
    if |cs| == 1 then cs[0] else cs[0] + [x] + Join(cs[1..], x)
  }

  /** Every path is some components with separators between them. */
  lemma {:induction false} Split<T>(s: seq<T>, x: T) returns (cs: seq<seq<T>>)
    ensures cs != [] && (forall i :: 0 <= i < |cs| ==> x !in cs[i]) && Join(cs, x) == s
    decreases |s|
  {
    var i := Find(s, x);
    if i == |s| {
      cs := [s];
    } else {
      var rest := Split(s[i + 1..], x);
      cs := [s[..i]] + rest;
      assert cs[1..] == rest;
      assert s == s[..i] + [x] + s[i + 1..];
    }
  }

  /** A component that names a directory by dots. */
  predicate Dots(c: seq<byte>) {
    1 <= |c| <= 2 && forall i :: 0 <= i < |c| ==> c[i] == 0x2e
  }

  lemma DotsMapped(c: seq<byte>, sfm: bool)
    ensures Mapped(c, sfm) <==> sfm && !Dots(c)
  {
  }

  lemma NetOfLast(cfg: Setting, c: seq<byte>)
    requires SLASH !in c
    ensures NetOf(cfg, c) == cfg.codec.enc(c, cfg.sfm && !Dots(c))
  {
    FindIs(c, SLASH, |c|);
    assert c[..|c|] == c;
    DotsMapped(c, cfg.sfm);
  }

  lemma NetOfFirst(cfg: Setting, c: seq<byte>, rest: seq<byte>)
    requires SLASH !in c
    ensures var w := cfg.codec.enc(c, cfg.sfm && !Dots(c));
      NetOf(cfg, c + [SLASH] + rest) ==
        if w.None? then None else Prefixed(w.value + [cfg.delimiter], NetOf(cfg, rest))
  {
    hide Dots, Mapped;
    var p := c + [SLASH] + rest;
    FindIs(p, SLASH, |c|);
    assert p[..|c|] == c && p[|c| + 1..] == rest;
    DotsMapped(c, cfg.sfm);
  }

  /** The network path has the components of the path, each converted by itself, dot and dotdot without mappings, with
      delimiters between them. */
  lemma {:induction false} NetOfComponents(cfg: Setting, cs: seq<seq<byte>>, ws: seq<seq<uint16>>)
    requires cs != [] && |ws| == |cs| && forall i :: 0 <= i < |cs| ==> SLASH !in cs[i]
    requires forall i :: 0 <= i < |cs| ==> cfg.codec.enc(cs[i], cfg.sfm && !Dots(cs[i])) == Some(ws[i])
    ensures NetOf(cfg, Join(cs, SLASH)) == Some(Join(ws, cfg.delimiter))
    decreases |cs|
  {
    hide NetOf, Dots;
    if |cs| == 1 {
      NetOfLast(cfg, cs[0]);
    } else {
      NetOfComponents(cfg, cs[1..], ws[1..]);
      NetOfFirst(cfg, cs[0], Join(cs[1..], SLASH));
    }
  }

  /** There is no network path exactly if some component cannot be converted. */
  lemma {:induction false} NetOfNone(cfg: Setting, cs: seq<seq<byte>>)
    requires cs != [] && forall i :: 0 <= i < |cs| ==> SLASH !in cs[i]
    ensures NetOf(cfg, Join(cs, SLASH)).None? <==>
      exists i :: 0 <= i < |cs| && cfg.codec.enc(cs[i], cfg.sfm && !Dots(cs[i])).None?
    decreases |cs|
  {
    hide NetOf, Dots;
    if |cs| == 1 {
      NetOfLast(cfg, cs[0]);
    } else {
      NetOfNone(cfg, cs[1..]);
      NetOfFirst(cfg, cs[0], Join(cs[1..], SLASH));
      if i :| 0 <= i < |cs| && cfg.codec.enc(cs[i], cfg.sfm && !Dots(cs[i])).None? {
        assert i > 0 ==> cs[1..][i - 1] == cs[i];
      }
    }
  }

  /** And back, with the mappings for every component. */
  lemma {:induction false} PathOfComponents(cfg: Setting, ws: seq<seq<uint16>>, cs: seq<seq<byte>>)
    requires ws != [] && |cs| == |ws| && forall i :: 0 <= i < |ws| ==> cfg.delimiter !in ws[i]
    requires forall i :: 0 <= i < |ws| ==> cfg.codec.dec(ws[i], cfg.sfm) == Some(cs[i])
    ensures PathOf(cfg, Join(ws, cfg.delimiter)) == Some(Join(cs, SLASH))
    decreases |ws|
  {
    hide PathOf;
    if |ws| == 1 {
      PathOfLast(cfg, ws[0]);
    } else {
      PathOfComponents(cfg, ws[1..], cs[1..]);
      PathOfFirst(cfg, ws[0], Join(ws[1..], cfg.delimiter));
    }
  }

  // ----- There and back -----

  /** No component is encoded with a delimiter in it. */
  predicate Clean(cfg: Setting, p: seq<byte>)
    decreases |p|
  {
    var i := Find(p, SLASH);
    var w := Encoded(cfg, p[..i]);
    w.Some? && cfg.delimiter !in w.value && (i < |p| ==> Clean(cfg, p[i + 1..]))
  }

  /** Every component is encoded without a delimiter in it and decoded to itself. */
  predicate Returns(cfg: Setting, p: seq<byte>)
    decreases |p|
  {
    var i := Find(p, SLASH);
    var w := Encoded(cfg, p[..i]);
    && w.Some? && cfg.delimiter !in w.value && Decoded(cfg, w.value) == Some(p[..i])
    && (i < |p| ==> Returns(cfg, p[i + 1..]))
  }

  function Count<T(==)>(s: seq<T>, x: T): nat {
    if s == [] then 0 else (if s[0] == x then 1 else 0) + Count(s[1..], x)
  }

  lemma {:induction false} CountAppend<T>(s: seq<T>, t: seq<T>, x: T)
    ensures Count(s + t, x) == Count(s, x) + Count(t, x)
  {
    if s == [] {
      assert s + t == t;
    } else {
      assert (s + t)[1..] == s[1..] + t;
      CountAppend(s[1..], t, x);
    }
  }

  lemma {:induction false} CountNone<T>(s: seq<T>, x: T)
    ensures Count(s, x) == 0 <==> x !in s
  {
    if s != [] {
      CountNone(s[1..], x);
      assert s == [s[0]] + s[1..];
    }
  }

  /** Counting around a separator. */
  lemma CountAround<T>(s: seq<T>, x: T, t: seq<T>)
    ensures Count(s + [x] + t, x) == Count(s, x) + 1 + Count(t, x)
  {
    CountAppend(s + [x], t, x);
    CountAppend(s, [x], x);
  }

  lemma CountAtFind<T>(s: seq<T>, x: T)
    ensures var i := Find(s, x);
      x !in s[..i] && Count(s, x) == if i < |s| then 1 + Count(s[i + 1..], x) else 0
  {
    hide Count, Find;
    var i := Find(s, x);
    CountNone(s[..i], x);
    if i < |s| {
      assert s == s[..i] + [x] + s[i + 1..];
      CountAround(s[..i], x, s[i + 1..]);
    } else {
      assert s[..i] == s;
    }
  }

  /** A network path has a delimiter for each slash, and more exactly when it is not clean. */
  lemma {:induction false} NetDelimiters(cfg: Setting, p: seq<byte>)
    requires NetOf(cfg, p).Some?
    ensures Count(NetOf(cfg, p).value, cfg.delimiter) >= Count(p, SLASH)
    ensures Count(NetOf(cfg, p).value, cfg.delimiter) == Count(p, SLASH) <==> Clean(cfg, p)
    decreases |p|
  {
    hide Encoded, Count;
    var i := Find(p, SLASH);
    var w := Encoded(cfg, p[..i]).value;
    CountAtFind(p, SLASH);
    CountNone(w, cfg.delimiter);
    if i < |p| {
      NetDelimiters(cfg, p[i + 1..]);
      CountAround(w, cfg.delimiter, NetOf(cfg, p[i + 1..]).value);
    }
  }

  /** A local path has at least a slash for each delimiter. */
  lemma {:induction false} PathSlashes(cfg: Setting, n: seq<uint16>)
    requires PathOf(cfg, n).Some?
    ensures Count(PathOf(cfg, n).value, SLASH) >= Count(n, cfg.delimiter)
    decreases |n|
  {
    hide Decoded, Count;
    var i := Find(n, cfg.delimiter);
    CountAtFind(n, cfg.delimiter);
    if i < |n| {
      PathSlashes(cfg, n[i + 1..]);
      CountAround(Decoded(cfg, n[..i]).value, SLASH, PathOf(cfg, n[i + 1..]).value);
    }
  }

  /** Two ways to split at the first separator are the same. */
  lemma SplitOnce<T>(a: seq<T>, b: seq<T>, x: T, s: seq<T>, t: seq<T>)
    requires x !in a && x !in b && a + [x] + s == b + [x] + t
    ensures a == b && s == t
  {
    var p := a + [x] + s;
    FindIs(p, x, |a|);
    FindIs(p, x, |b|);
    assert a == p[..|a|] && b == p[..|b|];
    assert s == p[|a| + 1..] && t == p[|b| + 1..];
  }

  lemma {:induction false} ReturnsClean(cfg: Setting, p: seq<byte>)
    requires Returns(cfg, p)
    ensures Clean(cfg, p)
    decreases |p|
  {
    hide Encoded, Decoded;
    var i := Find(p, SLASH);
    if i < |p| {
      ReturnsClean(cfg, p[i + 1..]);
    }
  }

  lemma {:induction false} CleanRoundTrip(cfg: Setting, p: seq<byte>)
    requires Clean(cfg, p) && NetOf(cfg, p).Some?
    ensures PathOf(cfg, NetOf(cfg, p).value) == Some(p) <==> Returns(cfg, p)
    decreases |p|
  {
    hide Encoded, Decoded, PathOf;
    var i := Find(p, SLASH);
    var w := Encoded(cfg, p[..i]).value;
    if i < |p| {
      CleanRoundTrip(cfg, p[i + 1..]);
      assert p == p[..i] + [SLASH] + p[i + 1..];
      CleanFirst(cfg, p[..i], p[i + 1..], w, NetOf(cfg, p[i + 1..]).value);
    } else {
      PathOfLast(cfg, w);
      assert p[..i] == p;
    }
  }

  /** One component of a clean path. */
  lemma CleanFirst(cfg: Setting, c: seq<byte>, rest: seq<byte>, w: seq<uint16>, net: seq<uint16>)
    requires SLASH !in c && cfg.delimiter !in w
    requires Clean(cfg, rest) && NetOf(cfg, rest) == Some(net)
    ensures PathOf(cfg, w + [cfg.delimiter] + net) == Some(c + [SLASH] + rest)
      <==> Decoded(cfg, w) == Some(c) && PathOf(cfg, net) == Some(rest)
  {
    hide Decoded, Clean, NetOf, PathOf, Count;
    if Decoded(cfg, w).Some? {
      PathOfFirst(cfg, w, net);
      var d := Decoded(cfg, w).value;
      if PathOf(cfg, w + [cfg.delimiter] + net) == Some(c + [SLASH] + rest) {
        var q := PathOf(cfg, net).value;
        PathSlashes(cfg, net);
        NetDelimiters(cfg, rest);
        CountAround(d, SLASH, q);
        CountAround(c, SLASH, rest);
        CountNone(d, SLASH);
        CountNone(c, SLASH);
        SplitOnce(d, c, SLASH, q, rest);
      }
    } else {
      PathOfNone(cfg, w, net);
    }
  }

  lemma PathOfNone(cfg: Setting, w: seq<uint16>, rest: seq<uint16>)
    requires cfg.delimiter !in w && Decoded(cfg, w).None?
    ensures PathOf(cfg, w + [cfg.delimiter] + rest) == None
  {
    var n := w + [cfg.delimiter] + rest;
    FindIs(n, cfg.delimiter, |w|);
    assert n[..|w|] == w;
  }

  /**
   A network path made from a local one gives the local one back exactly when each of its
   components comes back and none is encoded with a delimiter in it.
   */
  lemma RoundTrip(cfg: Setting, p: seq<byte>)
    requires NetOf(cfg, p).Some?
    ensures PathOf(cfg, NetOf(cfg, p).value) == Some(p) <==> Returns(cfg, p)
  {
    hide NetOf, PathOf, Clean, Returns, Count;
    NetDelimiters(cfg, p);
    if Clean(cfg, p) {
      CleanRoundTrip(cfg, p);
    } else {
      if PathOf(cfg, NetOf(cfg, p).value).Some? { PathSlashes(cfg, NetOf(cfg, p).value); }
      if Returns(cfg, p) { ReturnsClean(cfg, p); }
    }
  }

  /** With a delimiter in front, the local path comes back with a slash in front, exactly then too. */
  lemma RoundTripFull(cfg: Setting, p: seq<byte>)
    requires NetOf(cfg, p).Some? && Decoded(cfg, []) == Some([])
    ensures PathOf(cfg, [cfg.delimiter] + NetOf(cfg, p).value) == Some([SLASH] + p) <==> Returns(cfg, p)
  {
    hide Encoded, Decoded, PathOf, NetOf, Returns;
    var n := NetOf(cfg, p).value;
    RoundTrip(cfg, p);
    PathOfFirst(cfg, [], n);
    assert [] + [cfg.delimiter] + n == [cfg.delimiter] + n;
    assert [] + [SLASH] == [SLASH];
    if PathOf(cfg, n).Some? {
      assert ([SLASH] + PathOf(cfg, n).value)[1..] == PathOf(cfg, n).value;
      assert ([SLASH] + p)[1..] == p;
    }
  }

  /** A name with the delimiter in it, converted unchanged, comes back as a path of two names. */
  lemma DelimiterInName(cfg: Setting, a: seq<byte>, b: seq<byte>, n: seq<uint16>, m: seq<uint16>)
    requires SLASH !in a && SLASH !in b && cfg.delimiter == 0x5c && cfg.delimiter !in n && cfg.delimiter !in m
    requires Encoded(cfg, a + [0x5c] + b) == Some(n + [0x5c] + m)
    requires Decoded(cfg, n) == Some(a) && Decoded(cfg, m) == Some(b)
    ensures NetOf(cfg, a + [0x5c] + b).Some?
    ensures PathOf(cfg, NetOf(cfg, a + [0x5c] + b).value) == Some(a + [SLASH] + b)
  {
    hide Encoded, Decoded, PathOf;
    var p := a + [0x5c] + b;
    FindIs(p, SLASH, |p|);
    assert p[..|p|] == p;
    PathOfFirst(cfg, n, m);
    PathOfLast(cfg, m);
  }

  // ----- Into a buffer -----

  /**
   How a conversion into limited room ends: with the output, for want of room for a delimiter
   or for what is left, or at a component that cannot be converted or does not fit.  `cut` is
   the place of the delimiter after that component, if it has one.
   */
  datatype Outcome<T> = Done(out: seq<T>) | NoRoom | Stuck(cut: Option<nat>)

  /** What a conversion comes to after `before` was put out and `read` was read. */
  function After<T>(before: seq<T>, read: nat, o: Outcome<T>): Outcome<T> {
    match o
    case Done(out) => Done(before + out)
    case NoRoom => NoRoom
    case Stuck(cut) => Stuck(if cut.Some? then Some(read + cut.value) else None)
  }

  ghost predicate Fits(o: Option<seq<uint16>>, room: nat) {
    o.Some? && 2 * |o.value| <= room
  }

  /** The conversion of a path into `room` bytes. */
  ghost function Send(cfg: Setting, p: seq<byte>, room: nat): (r: Outcome<uint16>)
    ensures r.Stuck? && r.cut.Some? ==> r.cut.value < |p| && p[r.cut.value] == SLASH
    decreases |p|
  {
    if p == [] then Done([])
    else if room == 0 then NoRoom
    else
      var i := Find(p, SLASH);
      var w := Encoded(cfg, p[..i]);
      if !Fits(w, room) then Stuck(if i < |p| then Some(i) else None)
      else if i == |p| then Done(w.value)
      else if 2 * |w.value| + 2 > room then NoRoom
      else After(w.value + [cfg.delimiter], i + 1, Send(cfg, p[i + 1..], room - 2 * |w.value| - 2))
  }

  lemma SendUnfold(cfg: Setting, p: seq<byte>, room: nat)
    requires room > 0 && Encoded(cfg, []) == Some([])
    ensures var i := Find(p, SLASH);
      var e := Encoded(cfg, p[..i]);
      Send(cfg, p, room) ==
        if !Fits(e, room) then Stuck(if i < |p| then Some(i) else None)
        else if i == |p| then Done(e.value)
        else if 2 * |e.value| + 2 > room then NoRoom
        else After(e.value + [cfg.delimiter], i + 1, Send(cfg, p[i + 1..], room - 2 * |e.value| - 2))
  {
    hide Encoded, Find, After;
    if p == [] {
      assert p[..0] == [];
    }
  }

  /** Nothing is converted to nothing, and nothing else is. */
  ghost predicate Solid(cfg: Setting) {
    Encoded(cfg, []) == Some([]) && forall s :: Plain(s) && s != [] ==> Encoded(cfg, s) != Some([])
  }

  predicate NoNul(p: seq<byte>) {
    forall i :: 0 <= i < |p| ==> p[i] != 0
  }

  lemma SolidNeedsRoom(cfg: Setting, p: seq<byte>)
    requires Solid(cfg) && NoNul(p) && p != [] && NetOf(cfg, p).Some?
    ensures NetOf(cfg, p).value != []
  {
    var i := Find(p, SLASH);
    assert Plain(p[..i]);
    if i == |p| { assert p[..i] == p; }
  }

  /** The conversion succeeds exactly when the whole network path fits, and gives it. */
  lemma {:induction false} SendFits(cfg: Setting, p: seq<byte>, room: nat)
    requires Solid(cfg) && NoNul(p)
    ensures Send(cfg, p, room).Done? <==> Fits(NetOf(cfg, p), room)
    ensures Send(cfg, p, room).Done? ==> NetOf(cfg, p) == Some(Send(cfg, p, room).out)
    decreases |p|
  {
    hide Encoded, Solid, Send, NetOf, Find;
    SolidEmpty(cfg);
    NetUnfold(cfg, p);
    if room == 0 {
      SendNoRoom(cfg, p);
      if p == [] {
        assert p[..Find(p, SLASH)] == [];
      } else if NetOf(cfg, p).Some? {
        SolidNeedsRoom(cfg, p);
      }
    } else {
      SendUnfold(cfg, p, room);
      var i := Find(p, SLASH);
      var w := Encoded(cfg, p[..i]);
      if Fits(w, room) && i < |p| && 2 * |w.value| + 2 <= room {
        SendFits(cfg, p[i + 1..], room - 2 * |w.value| - 2);
      }
    }
  }

  lemma NetUnfold(cfg: Setting, p: seq<byte>)
    ensures var i := Find(p, SLASH);
      var w := Encoded(cfg, p[..i]);
      NetOf(cfg, p) == if w.None? || i == |p| then w else Prefixed(w.value + [cfg.delimiter], NetOf(cfg, p[i + 1..]))
  {
    hide Encoded, Find, Prefixed;
  }

  lemma SendNoRoom(cfg: Setting, p: seq<byte>)
    ensures Send(cfg, p, 0) == if p == [] then Done([]) else NoRoom
  {
  }

  lemma SolidEmpty(cfg: Setting)
    requires Solid(cfg)
    ensures Encoded(cfg, []) == Some([])
  {
  }

  /** The conversion back into limited room: it stops without an error as soon as the room is
      used up between two components. */
  function Back(cfg: Setting, n: seq<uint16>, room: nat): (r: Outcome<byte>)
    ensures r.Stuck? && r.cut.Some? ==> r.cut.value < |n| && n[r.cut.value] == cfg.delimiter
    decreases |n|
  {
    if room == 0 then Done([])
    else
      var i := Find(n, cfg.delimiter);
      var s := Decoded(cfg, n[..i]);
      if s.None? || |s.value| > room then Stuck(if i < |n| then Some(i) else None)
      else if i == |n| then Done(s.value)
      else if |s.value| == room then NoRoom
      else After(s.value + [SLASH], i + 1, Back(cfg, n[i + 1..], room - |s.value| - 1))
  }

  lemma BackUnfold(cfg: Setting, n: seq<uint16>, room: nat)
    requires room > 0
    ensures var i := Find(n, cfg.delimiter);
      var s := Decoded(cfg, n[..i]);
      Back(cfg, n, room) ==
        if s.None? || |s.value| > room then Stuck(if i < |n| then Some(i) else None)
        else if i == |n| then Done(s.value)
        else if |s.value| == room then NoRoom
        else After(s.value + [SLASH], i + 1, Back(cfg, n[i + 1..], room - |s.value| - 1))
  {
    hide Decoded, Find, After;
  }

  /** The room ends right after the delimiter of a component, or before the first one. */
  predicate IsCut(cfg: Setting, n: seq<uint16>, room: nat)
    decreases |n|
  {
    room == 0 ||
    var i := Find(n, cfg.delimiter);
    var s := Decoded(cfg, n[..i]);
    i < |n| && s.Some? && |s.value| < room && IsCut(cfg, n[i + 1..], room - |s.value| - 1)
  }

  lemma PathUnfold(cfg: Setting, n: seq<uint16>)
    ensures var i := Find(n, cfg.delimiter);
      var s := Decoded(cfg, n[..i]);
      PathOf(cfg, n) == if s.None? || i == |n| then s else Prefixed(s.value + [SLASH], PathOf(cfg, n[i + 1..]))
  {
    hide Decoded, Find, Prefixed;
  }

  lemma CutUnfold(cfg: Setting, n: seq<uint16>, room: nat)
    requires room > 0
    ensures var i := Find(n, cfg.delimiter);
      var s := Decoded(cfg, n[..i]);
      IsCut(cfg, n, room) <==> i < |n| && s.Some? && |s.value| < room && IsCut(cfg, n[i + 1..], room - |s.value| - 1)
  {
    hide Decoded, Find;
  }

  /** What comes back is the beginning of the path. */
  lemma {:induction false} BackIsPrefix(cfg: Setting, n: seq<uint16>, room: nat)
    requires PathOf(cfg, n).Some? && Back(cfg, n, room).Done?
    ensures |Back(cfg, n, room).out| <= room
    ensures Back(cfg, n, room).out <= PathOf(cfg, n).value
    decreases |n|
  {
    hide Decoded, Back, PathOf, Find;
    if room == 0 {
      BackNone(cfg, n);
    } else {
      PathUnfold(cfg, n);
      BackUnfold(cfg, n, room);
      var i := Find(n, cfg.delimiter);
      if i < |n| {
        BackIsPrefix(cfg, n[i + 1..], room - |Decoded(cfg, n[..i]).value| - 1);
      }
    }
  }

  lemma BackNone(cfg: Setting, n: seq<uint16>)
    ensures Back(cfg, n, 0) == Done([])
  {
  }

  lemma {:induction false} BackWithRoom(cfg: Setting, n: seq<uint16>, room: nat)
    requires PathOf(cfg, n).Some? && |PathOf(cfg, n).value| <= room
    ensures Back(cfg, n, room) == Done(PathOf(cfg, n).value)
    decreases |n|
  {
    hide Decoded, Back, PathOf, Find;
    if room == 0 {
      BackNone(cfg, n);
    } else {
      PathUnfold(cfg, n);
      BackUnfold(cfg, n, room);
      var i := Find(n, cfg.delimiter);
      if i < |n| {
        BackWithRoom(cfg, n[i + 1..], room - |Decoded(cfg, n[..i]).value| - 1);
      }
    }
  }

  /** The whole path comes back exactly when there is room for it. */
  lemma BackWhole(cfg: Setting, n: seq<uint16>, room: nat)
    requires PathOf(cfg, n).Some?
    ensures Back(cfg, n, room) == Done(PathOf(cfg, n).value) <==> |PathOf(cfg, n).value| <= room
  {
    hide Back, PathOf;
    if |PathOf(cfg, n).value| <= room {
      BackWithRoom(cfg, n, room);
    } else if Back(cfg, n, room).Done? {
      BackIsPrefix(cfg, n, room);
    }
  }

  /** It succeeds exactly when there is room for all of it or the room ends at a cut. */
  lemma {:induction false} BackSucceeds(cfg: Setting, n: seq<uint16>, room: nat)
    requires PathOf(cfg, n).Some?
    ensures Back(cfg, n, room).Done? <==> |PathOf(cfg, n).value| <= room || IsCut(cfg, n, room)
    decreases |n|
  {
    hide Decoded, Back, PathOf, Find, IsCut;
    if room == 0 {
      BackNone(cfg, n);
      CutNone(cfg, n);
    } else {
      PathUnfold(cfg, n);
      BackUnfold(cfg, n, room);
      CutUnfold(cfg, n, room);
      var i := Find(n, cfg.delimiter);
      if i < |n| && |Decoded(cfg, n[..i]).value| < room {
        BackSucceeds(cfg, n[i + 1..], room - |Decoded(cfg, n[..i]).value| - 1);
      }
    }
  }

  lemma CutNone(cfg: Setting, n: seq<uint16>)
    ensures IsCut(cfg, n, 0)
  {
  }

  /** So a path of two components is cut short in silence when only the first one and the
      slash fit. */
  lemma BackStopsEarly(cfg: Setting, first: seq<uint16>, second: seq<uint16>)
    requires cfg.delimiter !in first && cfg.delimiter !in second
    requires Decoded(cfg, first).Some? && Decoded(cfg, second).Some? && Decoded(cfg, second).value != []
    ensures var n := first + [cfg.delimiter] + second;
      var s := Decoded(cfg, first).value;
      && Back(cfg, n, |s| + 1) == Done(s + [SLASH])
      && PathOf(cfg, n) == Some(s + [SLASH] + Decoded(cfg, second).value)
  {
    hide Decoded;
    var n := first + [cfg.delimiter] + second;
    PathOfFirst(cfg, first, second);
    PathOfLast(cfg, second);
    FindIs(n, cfg.delimiter, |first|);
    assert n[..|first|] == first;
    var s := Decoded(cfg, first).value;
    assert Back(cfg, n[|first| + 1..], 0) == Done([]);
    assert s + [SLASH] + [] == s + [SLASH];
  }
}
