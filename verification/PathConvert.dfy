/**
 The conversion of whole paths in Unicode mode, component by component, in the buffers the
 callers give. A delimiter is overwritten with a NUL while its component is converted, and put
 back afterwards.
 */
module PathConvert {
  import opened Integers
  import opened Options
  import opened PathSpec

  /** `Unconverted` stands for whatever error the conversion of a component gives. */
  datatype Error = Success | E2BIG | Unconverted

  /** The string in a buffer: what is before the first NUL. */
  function Until<T(==)>(s: seq<T>, nul: T): (r: seq<T>)
    ensures |r| <= |s| && r == s[..|r|]
    ensures forall i :: 0 <= i < |r| ==> r[i] != nul
    ensures |r| < |s| ==> s[|r|] == nul
  {
    s[..Find(s, nul)]
  }

  lemma UntilSuffix<T>(s: seq<T>, nul: T, k: nat)
    requires k <= |Until(s, nul)|
    ensures Until(s[k..], nul) == Until(s, nul)[k..]
  {
    FindIs(s[k..], nul, Find(s, nul) - k);
  }

  lemma InText<T>(window: seq<T>, nul: T, i: nat)
    requires i <= |Until(window, nul)|
    ensures i < |Until(window, nul)| <==> i < |window| && window[i] != nul
    ensures i < |Until(window, nul)| ==> Until(window, nul)[i] == window[i]
  {
  }

  /** The first `ch` before the NUL. */
  method StrlChr<T(==)>(s: array<T>, from: nat, ch: T, max: nat, nul: T) returns (r: Option<nat>)
    requires from + max <= s.Length && ch != nul
    ensures var text := Until(s[from..from + max], nul);
      r == if Find(text, ch) < |text| then Some(from + Find(text, ch)) else None
  {
    hide Until, Find;
    ghost var window := s[from..from + max];
    ghost var text := Until(window, nul);
    var i := 0;
    while i != max && s[from + i] != nul
      invariant i <= max && i <= |text|
      invariant forall j :: 0 <= j < i ==> text[j] != ch
      decreases max - i
    {
      assert window[i] == s[from + i];
      InText(window, nul, i);
      if s[from + i] == ch {
        FindIs(text, ch, i);
        return Some(from + i);
      }
      i := i + 1;
    }
    InText(window, nul, i);
    FindIs(text, ch, |text|);
    return None;
  }

  method StrnLen<T(==)>(s: array<T>, from: nat, max: nat, nul: T) returns (n: nat)
    requires from + max <= s.Length
    ensures n == |Until(s[from..from + max], nul)|
  {
    n := 0;
    ghost var window := s[from..from + max];
    while n != max && s[from + n] != nul
      invariant n <= max
      invariant forall j :: 0 <= j < n ==> window[j] != nul
      decreases max - n
    {
      assert window[n] == s[from + n];
      n := n + 1;
    }
    FindIs(window, nul, n);
  }

  lemma UntilLength<T>(s: seq<T>, nul: T)
    ensures |Until(s, nul)| == Find(s, nul)
  {
  }

  lemma CutWindow<T>(window: seq<T>, ch: T, nul: T)
    requires Find(Until(window, nul), ch) < |Until(window, nul)|
    ensures var i := Find(Until(window, nul), ch);
      Find(window[i := nul][..|window| - 1], nul) == i
  {
    var i := Find(Until(window, nul), ch);
    FindIs(window[i := nul][..|window| - 1], nul, i);
  }

  /** The next component: its length, and its delimiter overwritten if it has one. */
  method CutComponent<T(==)>(s: array<T>, from: nat, max: nat, ch: T, nul: T) returns (delimiter: Option<nat>, len: nat)
    requires from + max <= s.Length && ch != nul
    modifies s
    ensures var text := Until(old(s[from..from + max]), nul);
      && len == Find(text, ch)
      && (delimiter == if len < |text| then Some(from + len) else None)
      && s[..] == (if len < |text| then old(s[..])[from + len := nul] else old(s[..]))
  {
    hide Until, Find;
    ghost var window := s[from..from + max];
    delimiter := StrlChr(s, from, ch, max, nul);
    if delimiter.Some? {
      CutWindow(window, ch, nul);
      s[delimiter.value] := nul;
      len := StrnLen(s, from, max - 1, nul);
      assert s[from..from + max - 1] == window[delimiter.value - from := nul][..max - 1];
      UntilLength(s[from..from + max - 1], nul);
    } else {
      len := StrnLen(s, from, max, nul);
    }
  }

  method Store<T>(out: array<T>, at: nat, items: seq<T>)
    requires at + |items| <= out.Length
    modifies out
    ensures out[..at + |items|] == old(out[..at]) + items
  {
    forall i | 0 <= i < |items| {
      out[at + i] := items[i];
    }
  }

  // ----- To the network -----

  lemma AfterTwice<T>(a: seq<T>, m: nat, b: seq<T>, n: nat, o: Outcome<T>)
    ensures After(a, m, After(b, n, o)) == After(a + b, m + n, o)
  {
    if o.Done? {
      assert a + (b + o.out) == a + b + o.out;
    }
  }

  /** One component of the path. */
  lemma SendStep(cfg: Setting, done: seq<uint16>, read: nat, rest: seq<byte>, room: nat)
    requires room > 0 && Encoded(cfg, []) == Some([])
    ensures var i := Find(rest, SLASH);
      var e := Encoded(cfg, rest[..i]);
      After(done, read, Send(cfg, rest, room)) ==
        if !Fits(e, room) then Stuck(if i < |rest| then Some(read + i) else None)
        else if i == |rest| then Done(done + e.value)
        else if 2 * |e.value| + 2 > room then NoRoom
        else After(done + e.value + [cfg.delimiter], read + i + 1, Send(cfg, rest[i + 1..], room - 2 * |e.value| - 2))
  {
    hide Encoded, Find, Send;
    SendUnfold(cfg, rest, room);
    var i := Find(rest, SLASH);
    var e := Encoded(cfg, rest[..i]);
    if Fits(e, room) && i < |rest| && 2 * |e.value| + 2 <= room {
      AfterTwice(done, read, e.value + [cfg.delimiter], i + 1, Send(cfg, rest[i + 1..], room - 2 * |e.value| - 2));
      assert done + (e.value + [cfg.delimiter]) == done + e.value + [cfg.delimiter];
    }
  }

  function Lead(cfg: Setting, full: bool, first: byte): seq<uint16> {
    if full && first != SLASH then [cfg.delimiter] else []
  }

  /** The network form of the string in a buffer, with a delimiter in front if one is asked for. */
  function Wanted(cfg: Setting, full: bool, path: seq<byte>, max: nat): Option<seq<uint16>>
    requires 0 < |path| && max <= |path|
  {
    Prefixed(Lead(cfg, full, path[0]), NetOf(cfg, Until(path[..max], 0)))
  }

  /** How the conversion of the string in a buffer ends. */
  ghost function Sending(cfg: Setting, full: bool, path: seq<byte>, max: nat, room: nat): Outcome<uint16>
    requires 0 < |path| && max <= |path|
  {
    var lead := Lead(cfg, full, path[0]);
    if 2 * |lead| > room then NoRoom
    else After(lead, 0, Send(cfg, Until(path[..max], 0), room - 2 * |lead|))
  }

  /** It succeeds exactly when the whole fits, and gives the whole. */
  lemma SendingFits(cfg: Setting, full: bool, path: seq<byte>, max: nat, room: nat)
    requires Solid(cfg) && 0 < |path| && max <= |path|
    ensures Sending(cfg, full, path, max, room).Done? <==> Fits(Wanted(cfg, full, path, max), room)
    ensures Sending(cfg, full, path, max, room).Done? ==>
      Wanted(cfg, full, path, max) == Some(Sending(cfg, full, path, max, room).out)
  {
    hide Send, NetOf, Solid;
    var lead := Lead(cfg, full, path[0]);
    if 2 * |lead| <= room {
      SendFits(cfg, Until(path[..max], 0), room - 2 * |lead|);
    }
  }

  /** A buffer in which the delimiter at `cut`, if there is one, is overwritten. */
  function Overwritten<T>(s: seq<T>, cut: Option<nat>, nul: T): seq<T>
    requires cut.Some? ==> cut.value < |s|
  {
    if cut.Some? then s[cut.value := nul] else s
  }

  /** Converts one component into what is left of the buffer, which is cut to whole units. */
  method Emit(cfg: Setting, component: seq<byte>, network: array<uint16>, w: nat, resid: nat)
    returns (error: bool, len: nat)
    requires w + resid / 2 <= network.Length
    modifies network
    ensures error <==> !Fits(Encoded(cfg, component), resid)
    ensures !error ==> len == |Encoded(cfg, component).value|
    ensures !error ==> network[..w + len] == old(network[..w]) + Encoded(cfg, component).value
  {
    hide Encoded;
    var sfm := cfg.sfm;
    if (|component| == 1 && component[0] == 0x2e) ||
      (|component| == 2 && component[0] == 0x2e && component[1] == 0x2e) {
      sfm := false;
    }
    MappedIs(component, cfg.sfm, sfm);
    EncodedIs(cfg, component);
    var e := cfg.codec.enc(component, sfm);
    var outLeft := resid - resid % 2;
    if e.None? || 2 * |e.value| > outLeft {
      return true, 0;
    }
    Store(network, w, e.value);
    return false, |e.value|;
  }

  lemma MappedIs(s: seq<byte>, sfm: bool, used: bool)
    requires used == (sfm && !((|s| == 1 && s[0] == 0x2e) || (|s| == 2 && s[0] == 0x2e && s[1] == 0x2e)))
    ensures Mapped(s, sfm) == used
  {
    assert |s| == 1 && s[0] == 0x2e ==> s == [0x2e];
    assert |s| == 2 && s[0] == 0x2e && s[1] == 0x2e ==> s == [0x2e, 0x2e];
  }

  lemma EncodedIs(cfg: Setting, s: seq<byte>)
    ensures Encoded(cfg, s) == cfg.codec.enc(s, Mapped(s, cfg.sfm))
  {
  }

  lemma ComponentIs(was: seq<byte>, now: seq<byte>, pos: nat, max: nat)
    requires pos + max <= |was|
    requires var rest := Until(was[pos..pos + max], 0);
      var i := Find(rest, SLASH);
      now == if i < |rest| then was[pos + i := 0] else was
    ensures var rest := Until(was[pos..pos + max], 0);
      var i := Find(rest, SLASH);
      now[pos..pos + i] == rest[..i] && (i < |rest| ==> was[pos + i] == SLASH)
  {
    var rest := Until(was[pos..pos + max], 0);
    assert forall k :: 0 <= k < |rest| ==> rest[k] == was[pos + k];
  }

  method SetDelimiter(network: array<uint16>, delimiter: uint16, w: nat, resid: nat) returns (ok: bool)
    requires w + resid / 2 <= network.Length
    modifies network
    ensures ok <==> resid >= 2
    ensures ok ==> network[..w + 1] == old(network[..w]) + [delimiter]
    ensures !ok ==> network[..] == old(network[..])
  {
    if resid < 2 {
      return false;
    }
    network[w] := delimiter;
    return true;
  }

  /** One component from the path to the network buffer, its delimiter put back. */
  method ConvertNext(cfg: Setting, path: array<byte>, pos: nat, max: nat, network: array<uint16>, w: nat, resid: nat)
    returns (failed: bool, next: Option<nat>, used: nat, n: nat)
    requires pos + max <= path.Length && w + resid / 2 <= network.Length
    modifies path, network
    ensures var rest := Until(old(path[pos..pos + max]), 0);
      var i := Find(rest, SLASH);
      var e := Encoded(cfg, rest[..i]);
      && (failed <==> !Fits(e, resid))
      && (failed ==> path[..] == if i < |rest| then old(path[..])[pos + i := 0] else old(path[..]))
      && (!failed ==>
        && path[..] == old(path[..])
        && n == |e.value| && network[..w + n] == old(network[..w]) + e.value
        && next == (if i < |rest| then Some(pos + i + 1) else None)
        && used == (if i < |rest| then i + 1 else i))
  {
    hide Encoded, Find, Until;
    ghost var was := path[..];
    assert was[pos..pos + max] == path[pos..pos + max];
    var delimiter, size := CutComponent(path, pos, max, SLASH, 0);
    ComponentIs(was, path[..], pos, max);
    assert path[..][pos..pos + size] == path[pos..pos + size];
    failed, n := Emit(cfg, path[pos..pos + size], network, w, resid);
    next, used := None, size;
    if failed {
      return;
    }
    if delimiter.Some? {
      path[delimiter.value] := SLASH;
      next, used := Some(delimiter.value + 1), size + 1;
      assert path[..] == was;
    }
  }

  /** One component and, if there is more to come, the delimiter after it. */
  method ConvertStep(cfg: Setting, path: array<byte>, pos: nat, max: nat, network: array<uint16>, w: nat, resid: nat)
    returns (error: Error, next: Option<nat>, used: nat, n: nat)
    requires pos + max <= path.Length && w + resid / 2 <= network.Length && resid > 0 && Encoded(cfg, []) == Some([])
    modifies path, network
    ensures var rest := Until(old(path[pos..pos + max]), 0);
      var end := After(old(network[..w]), pos, Send(cfg, rest, resid));
      match error
      case Unconverted => end.Stuck? && (end.cut.Some? ==> end.cut.value < path.Length) &&
        path[..] == Overwritten(old(path[..]), end.cut, 0)
      case E2BIG => end == NoRoom && path[..] == old(path[..])
      case Success =>
        && path[..] == old(path[..]) && 2 * n <= resid && used <= max
        && (next.None? ==> end == Done(network[..w + n]))
        && (next.Some? ==>
          && next.value == pos + used && 0 < used <= |rest|
          && end == After(network[..w + n], next.value, Send(cfg, rest[used..], resid - 2 * n)))
  {
    hide Encoded, Send, Until, Find;
    ghost var rest := Until(path[pos..pos + max], 0);
    SendStep(cfg, network[..w], pos, rest, resid);
    var failed;
    failed, next, used, n := ConvertNext(cfg, path, pos, max, network, w, resid);
    if failed {
      return Unconverted, next, used, n;
    }
    if next.Some? {
      var ok := SetDelimiter(network, cfg.delimiter, w + n, resid - 2 * n);
      if !ok {
        return E2BIG, next, used, n;
      }
      n := n + 1;
    }
    error := Success;
  }

  /**
   Ends as `Sending` says.  On success the buffer holds the output and the source is as it was;
   the source is damaged exactly when a component with a delimiter after it could not be put out.
   */
  method PathToNetwork(cfg: Setting, full: bool, path: array<byte>, maxPathLen: nat,
                       network: array<uint16>, ntwrkLen: nat)
    returns (error: Error, len: nat)
    requires Encoded(cfg, []) == Some([])
    requires 0 < path.Length && maxPathLen <= path.Length && ntwrkLen / 2 <= network.Length
    modifies path, network
    ensures match Sending(cfg, full, old(path[..]), maxPathLen, ntwrkLen)
      case Done(out) =>
        && error == Success && path[..] == old(path[..])
        && len == 2 * |out| <= ntwrkLen && network[..|out|] == out
      case NoRoom => error == E2BIG && path[..] == old(path[..])
      case Stuck(cut) =>
        && error == Unconverted && (cut.Some? ==> cut.value < path.Length && old(path[..])[cut.value] == SLASH)
        && path[..] == Overwritten(old(path[..]), cut, 0)
  {
    hide Encoded, Send, Until, Find;
    ghost var was := path[..];
    ghost var text := Until(was[..maxPathLen], 0);
    ghost var end := Sending(cfg, full, was, maxPathLen, ntwrkLen);
    SendingCut(cfg, full, was, maxPathLen, ntwrkLen);
    error, len := Success, ntwrkLen;
    var resid: nat, w: nat := ntwrkLen, 0;
    if full && path[0] != SLASH {
      var ok := SetDelimiter(network, cfg.delimiter, w, resid);
      if !ok {
        return E2BIG, len;
      }
      w, resid := 1, resid - 2;
    }
    var pos: Option<nat> := Some(0);
    var max := maxPathLen;
    assert text[0..] == text && network[..w] == Lead(cfg, full, path[0]);
    while pos.Some? && resid != 0 && max != 0
      invariant path[..] == was && 0 <= resid && 0 <= w && resid + 2 * w == ntwrkLen
      invariant pos.Some? ==> pos.value <= |text| && max == maxPathLen - pos.value
      invariant end == if pos.Some? then After(network[..w], pos.value, Send(cfg, text[pos.value..], resid))
        else Done(network[..w])
      decreases pos.Some?, max
    {
      RestIs(was, pos.value, maxPathLen);
      assert path[pos.value..pos.value + max] == was[pos.value..maxPathLen];
      var next, used, n;
      error, next, used, n := ConvertStep(cfg, path, pos.value, max, network, w, resid);
      if !error.Success? {
        return;
      }
      assert next.Some? ==> text[pos.value..][used..] == text[next.value..];
      w, resid, max, pos := w + n, resid - 2 * n, max - used, next;
    }
    if pos.Some? { RestEnds(cfg, was, maxPathLen, pos.value, max, resid); }
    if pos.Some? && max != 0 && path[pos.value] != 0 {
      return E2BIG, len;
    }
    error := Success;
    len := ntwrkLen - resid;
  }

  lemma RestIs(was: seq<byte>, pos: nat, maxLen: nat)
    requires maxLen <= |was| && pos <= |Until(was[..maxLen], 0)|
    ensures Until(was[pos..maxLen], 0) == Until(was[..maxLen], 0)[pos..]
  {
    UntilSuffix(was[..maxLen], 0, pos);
    assert was[..maxLen][pos..] == was[pos..maxLen];
  }

  /** What is left when the loop stops: nothing, or something for which there is no room. */
  lemma RestEnds(cfg: Setting, was: seq<byte>, maxLen: nat, pos: nat, max: nat, room: nat)
    requires maxLen <= |was| && pos <= |Until(was[..maxLen], 0)| && max == maxLen - pos && (room == 0 || max == 0)
    ensures Send(cfg, Until(was[..maxLen], 0)[pos..], room) == if max != 0 && was[pos] != 0 then NoRoom else Done([])
  {
    var text := Until(was[..maxLen], 0);
    if max != 0 && was[pos] != 0 {
      assert pos < |text|;
    } else {
      assert text[pos..] == [];
    }
  }

  /** The delimiter left overwritten is a slash of the path. */
  lemma SendingCut(cfg: Setting, full: bool, path: seq<byte>, max: nat, room: nat)
    requires 0 < |path| && max <= |path|
    ensures var end := Sending(cfg, full, path, max, room);
      end.Stuck? && end.cut.Some? ==> end.cut.value < |path| && path[end.cut.value] == SLASH
  {
    hide Send, Find;
  }

  // ----- From the network -----

  lemma BackStep(cfg: Setting, done: seq<byte>, read: nat, rest: seq<uint16>, room: nat)
    requires room > 0
    ensures var i := Find(rest, cfg.delimiter);
      var s := Decoded(cfg, rest[..i]);
      After(done, read, Back(cfg, rest, room)) ==
        if s.None? || |s.value| > room then Stuck(if i < |rest| then Some(read + i) else None)
        else if i == |rest| then Done(done + s.value)
        else if |s.value| == room then NoRoom
        else After(done + s.value + [SLASH], read + i + 1, Back(cfg, rest[i + 1..], room - |s.value| - 1))
  {
    hide Decoded, Find, Back;
    BackUnfold(cfg, rest, room);
    var i := Find(rest, cfg.delimiter);
    var s := Decoded(cfg, rest[..i]);
    if s.Some? && |s.value| < room && i < |rest| {
      AfterTwice(done, read, s.value + [SLASH], i + 1, Back(cfg, rest[i + 1..], room - |s.value| - 1));
      assert done + (s.value + [SLASH]) == done + s.value + [SLASH];
    }
  }

  lemma UnitsAre(cfg: Setting, was: seq<uint16>, now: seq<uint16>, pos: nat, max: nat)
    requires pos + max <= |was|
    requires var rest := Until(was[pos..pos + max], 0);
      var i := Find(rest, cfg.delimiter);
      now == if i < |rest| then was[pos + i := 0] else was
    ensures var rest := Until(was[pos..pos + max], 0);
      var i := Find(rest, cfg.delimiter);
      now[pos..pos + i] == rest[..i] && (i < |rest| ==> was[pos + i] == cfg.delimiter)
  {
    var rest := Until(was[pos..pos + max], 0);
    assert forall k :: 0 <= k < |rest| ==> rest[k] == was[pos + k];
  }

  /** One component from the network to the path buffer, its delimiter put back. */
  method RestoreNext(cfg: Setting, network: array<uint16>, pos: nat, max: nat, path: array<byte>, w: nat, resid: nat)
    returns (failed: bool, next: Option<nat>, used: nat, n: nat)
    requires pos + max / 2 <= network.Length && w + resid <= path.Length && cfg.delimiter != 0
    modifies path, network
    ensures var rest := Until(old(network[pos..pos + max / 2]), 0);
      var i := Find(rest, cfg.delimiter);
      var s := Decoded(cfg, rest[..i]);
      && (failed <==> s.None? || |s.value| > resid)
      && (failed ==> network[..] == if i < |rest| then old(network[..])[pos + i := 0] else old(network[..]))
      && (!failed ==>
        && network[..] == old(network[..])
        && n == |s.value| && path[..w + n] == old(path[..w]) + s.value
        && next == (if i < |rest| then Some(pos + i + 1) else None)
        && used == (if i < |rest| then 2 * i + 2 else 2 * i))
  {
    hide Decoded, Until, Find;
    ghost var was := network[..];
    assert was[pos..pos + max / 2] == network[pos..pos + max / 2];
    var delimiter, size := CutComponent(network, pos, max / 2, cfg.delimiter, 0);
    UnitsAre(cfg, was, network[..], pos, max / 2);
    assert network[..][pos..pos + size] == network[pos..pos + size];
    next, used, n := None, 2 * size, 0;
    var s := Decoded(cfg, network[pos..pos + size]);
    failed := s.None? || |s.value| > resid;
    if failed {
      return;
    }
    Store(path, w, s.value);
    n := |s.value|;
    if delimiter.Some? {
      network[delimiter.value] := cfg.delimiter;
      next, used := Some(delimiter.value + 1), 2 * size + 2;
      assert network[..] == was;
    }
  }

  /** One component and, if there is more to come, the slash after it. */
  method RestoreStep(cfg: Setting, network: array<uint16>, pos: nat, max: nat, path: array<byte>, w: nat, resid: nat)
    returns (error: Error, next: Option<nat>, used: nat, n: nat)
    requires pos + max / 2 <= network.Length && w + resid <= path.Length && resid > 0 && cfg.delimiter != 0
    modifies path, network
    ensures var rest := Until(old(network[pos..pos + max / 2]), 0);
      var end := After(old(path[..w]), pos, Back(cfg, rest, resid));
      match error
      case Unconverted =>
        end.Stuck? && (end.cut.Some? ==> end.cut.value < network.Length) &&
          network[..] == Overwritten(old(network[..]), end.cut, 0)
      case E2BIG => end == NoRoom && network[..] == old(network[..])
      case Success =>
        && network[..] == old(network[..]) && n <= resid && used <= max
        && (next.None? ==> end == Done(path[..w + n]))
        && (next.Some? ==>
          && next.value == pos + used / 2 && 0 < used / 2 <= |rest| && used % 2 == 0
          && end == After(path[..w + n], next.value, Back(cfg, rest[used / 2..], resid - n)))
  {
    hide Decoded, Back, Until, Find;
    ghost var rest := Until(network[pos..pos + max / 2], 0);
    BackStep(cfg, path[..w], pos, rest, resid);
    var failed;
    failed, next, used, n := RestoreNext(cfg, network, pos, max, path, w, resid);
    if failed {
      return Unconverted, next, used, n;
    }
    if next.Some? {
      if resid - n == 0 {
        return E2BIG, next, used, n;
      }
      Store(path, w + n, [SLASH]);
      n := n + 1;
    }
    error := Success;
  }

  /**
   Ends as `Back` says.  The source is damaged exactly when a component with a delimiter after
   it could not be put out.
   */
  method NetworkToPath(cfg: Setting, network: array<uint16>, maxNtwrkLen: nat, path: array<byte>, pathLen: nat)
    returns (error: Error, len: nat)
    requires cfg.delimiter != 0 && Decoded(cfg, []) == Some([])
    requires maxNtwrkLen / 2 <= network.Length && pathLen <= path.Length
    modifies path, network
    ensures match Back(cfg, Until(old(network[..maxNtwrkLen / 2]), 0), pathLen)
      case Done(out) =>
        && error == Success && network[..] == old(network[..])
        && len == |out| <= pathLen && path[..len] == out
      case NoRoom => error == E2BIG && network[..] == old(network[..])
      case Stuck(cut) =>
        && error == Unconverted && (cut.Some? ==> cut.value < network.Length)
        && network[..] == Overwritten(old(network[..]), cut, 0)
  {
    hide Decoded, Back, Until, Find;
    ghost var was, units := network[..], maxNtwrkLen / 2;
    ghost var text := Until(was[..units], 0);
    assert was[..units] == network[..units];
    ghost var end := Back(cfg, text, pathLen);
    error, len := Success, pathLen;
    var resid, w: nat := pathLen, 0;
    var pos: Option<nat> := Some(0);
    var max := maxNtwrkLen;
    assert text[0..] == text;
    NothingBefore(end);
    while pos.Some? && resid != 0 && max != 0
      invariant error.Success? && network[..] == was && 0 <= resid && resid + w == pathLen
      invariant pos.Some? ==> pos.value <= |text| && max == maxNtwrkLen - 2 * pos.value
      invariant end == if pos.Some? then After(path[..w], pos.value, Back(cfg, text[pos.value..], resid))
        else Done(path[..w])
      decreases pos.Some?, max
    {
      UnitsLeft(was, pos.value, units);
      assert network[pos.value..pos.value + max / 2] == was[pos.value..units];
      var next, used, n;
      error, next, used, n := RestoreStep(cfg, network, pos.value, max, path, w, resid);
      if !error.Success? {
        return;
      }
      assert next.Some? ==> text[pos.value..][used / 2..] == text[next.value..];
      w, resid, max, pos := w + n, resid - n, max - used, next;
    }
    BackEnds(cfg, if pos.Some? then text[pos.value..] else [], resid);
    len := pathLen - resid;
  }

  lemma NothingBefore(o: Outcome<byte>)
    ensures After([], 0, o) == o
  {
    if o.Done? {
      assert [] + o.out == o.out;
    }
  }

  lemma BackEnds(cfg: Setting, rest: seq<uint16>, room: nat)
    requires Decoded(cfg, []) == Some([]) && (rest == [] || room == 0)
    ensures Back(cfg, rest, room) == Done([])
  {
    if rest == [] { assert rest[..0] == []; }
  }

  lemma UnitsLeft(was: seq<uint16>, pos: nat, units: nat)
    requires units <= |was| && pos <= |Until(was[..units], 0)|
    ensures Until(was[pos..units], 0) == Until(was[..units], 0)[pos..]
  {
    UntilSuffix(was[..units], 0, pos);
    assert was[..units][pos..] == was[pos..units];
  }

  // ----- There and back -----

  /**
   A path to the network and back, with enough room, is the same path, with a slash in front if
   a full path was asked for and it had none, when its components come back and are encoded
   without a NUL; both buffers read from are as they were.
   */
  method ThereAndBack(cfg: Setting, full: bool, path: array<byte>, network: array<uint16>, back: array<byte>)
    returns (error: Error, len: nat)
    requires cfg.delimiter != 0 && Encoded(cfg, []) == Some([]) && Decoded(cfg, []) == Some([])
    requires 0 < path.Length && path != back && path.Length + 1 <= back.Length
    requires Returns(cfg, Until(path[..], 0)) && NulFree(cfg, Until(path[..], 0))
    modifies path, network, back
    ensures error.Success? <==> Sending(cfg, full, old(path[..]), path.Length, 2 * network.Length).Done?
    ensures error.Success? ==>
      var p := Until(old(path[..]), 0);
      var expected := if full && old(path[0]) != SLASH then [SLASH] + p else p;
      && path[..] == old(path[..])
      && len == |expected| <= back.Length && back[..len] == expected
  {
    hide Send, NetOf, PathOf, Back, Encoded, Decoded, Returns, NulFree, Until;
    ghost var was := path[..];
    assert was[..path.Length] == was;
    ghost var end := Sending(cfg, full, was, path.Length, 2 * network.Length);
    var ntwrkLen;
    error, ntwrkLen := PathToNetwork(cfg, full, path, path.Length, network, 2 * network.Length);
    if error != Success {
      return error, 0;
    }
    SentBack(cfg, full, was, 2 * network.Length);
    assert network[..ntwrkLen / 2] == end.out;
    error, len := NetworkToPath(cfg, network, ntwrkLen, back, back.Length);
    BackWhole(cfg, end.out, back.Length);
  }

  /** No component is encoded with a NUL in it. */
  predicate NulFree(cfg: Setting, p: seq<byte>)
    decreases |p|
  {
    var i := Find(p, SLASH);
    var w := Encoded(cfg, p[..i]);
    w.Some? && 0 !in w.value && (i < |p| ==> NulFree(cfg, p[i + 1..]))
  }

  /** What is put out is the network path. */
  lemma {:induction false} SendIsNet(cfg: Setting, p: seq<byte>, room: nat)
    requires Encoded(cfg, []) == Some([]) && Send(cfg, p, room).Done?
    ensures NetOf(cfg, p) == Some(Send(cfg, p, room).out)
    decreases |p|
  {
    hide Encoded;
    var i := Find(p, SLASH);
    if p == [] {
      assert p[..i] == [];
    } else if i < |p| {
      SendIsNet(cfg, p[i + 1..], room - 2 * |Encoded(cfg, p[..i]).value| - 2);
    }
  }

  lemma SentBack(cfg: Setting, full: bool, path: seq<byte>, room: nat)
    requires cfg.delimiter != 0 && Encoded(cfg, []) == Some([]) && Decoded(cfg, []) == Some([])
    requires 0 < |path| && Sending(cfg, full, path, |path|, room).Done?
    requires Returns(cfg, Until(path, 0)) && NulFree(cfg, Until(path, 0))
    ensures var p := Until(path, 0);
      var n := Sending(cfg, full, path, |path|, room).out;
      && PathOf(cfg, n) == Some(if full && path[0] != SLASH then [SLASH] + p else p)
      && Until(n, 0) == n
  {
    hide Send, NetOf, PathOf, Encoded, Decoded, Returns, NulFree, Until, Find;
    var p := Until(path, 0);
    assert path[..|path|] == path;
    var lead := Lead(cfg, full, path[0]);
    SendIsNet(cfg, p, room - 2 * |lead|);
    var n := NetOf(cfg, p).value;
    RoundTrip(cfg, p);
    RoundTripFull(cfg, p);
    NetHasNoNul(cfg, p);
    if lead == [] { assert lead + n == n; }
    NoNulWhole(lead + n);
  }

  lemma NoNulWhole(w: seq<uint16>)
    requires 0 !in w
    ensures Until(w, 0) == w
  {
    FindIs(w, 0, |w|);
    assert w[..|w|] == w;
  }

  lemma {:induction false} NetHasNoNul(cfg: Setting, p: seq<byte>)
    requires cfg.delimiter != 0 && NulFree(cfg, p) && NetOf(cfg, p).Some?
    ensures 0 !in NetOf(cfg, p).value
    decreases |p|
  {
    hide Encoded;
    var i := Find(p, SLASH);
    if i < |p| {
      NetHasNoNul(cfg, p[i + 1..]);
    }
  }
}
