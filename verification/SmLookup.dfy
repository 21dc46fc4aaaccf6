/**
 The search of the session list: by session, to find out whether it is still there, or by
 address and credentials, to share a session that exists. A session found comes back locked
 and with a reference.

 A session carries the calling thread's nesting depth of its lock; a lock that another thread
 holds is waited for. Whenever the list is unlocked for another attempt, other threads may
 change it: `later` lists what each further attempt finds.
 */
module SmLookup {
  import opened Options

  /** `inner` is the internet address inside a NetBIOS one. */
  datatype SockAddr = Inet(bytes: seq<nat>) | NetBios(bytes: seq<nat>, inner: seq<nat>)

  datatype Access = Access(simpleSharing: bool, privateGuest: bool, anonymous: bool, kerberos: bool, guest: bool)

  datatype Session = Session(
    id: nat,
    authenticated: bool,
    address: Option<SockAddr>,
    server: Option<string>,
    uid: nat,
    hifi: bool,
    active: bool,
    reconnecting: bool,
    access: Access,
    username: Option<string>,
    gone: bool,
    depth: nat,
    uses: nat)

  datatype Request =
    | BySession(id: nat)
    | ByAddress(address: SockAddr, owner: nat, username: Option<string>, access: Access, dns: Option<string>,
      hifi: bool)

  datatype Outcome = Found(index: nat) | NotFound | Busy | Retry

  const MAX_USERNAME: nat := 128
  const MAX_DNS: nat := 255

  // ----- Matching -----

  function Cut(s: string, n: nat): string {
    if |s| <= n then s else s[..n]
  }

  predicate AddressMatch(session: Option<SockAddr>, wanted: SockAddr) {
    session.Some? &&
    (if session.value.NetBios? && wanted.Inet? then session.value.inner == wanted.bytes else session.value == wanted)
  }

  function Lower(c: char): char {
    if 'A' <= c <= 'Z' then (c as int + 32) as char else c
  }

  predicate SameFolded(a: string, b: string) {
    |a| == |b| && forall i :: 0 <= i < |a| ==> Lower(a[i]) == Lower(b[i])
  }

  /** The place of the first dot, or the length. */
  function Dot(s: string): (n: nat)
    ensures n <= |s|
    ensures forall i :: 0 <= i < n ==> s[i] != '.'
    ensures n < |s| ==> s[n] == '.'
  {
    if s == "" || s[0] == '.' then 0 else 1 + Dot(s[1..])
  }

  predicate Dotted(s: string) {
    Dot(s) < |s|
  }

  /** The part of a name that is compared with another: the first label only, if just this
      name has further ones. */
  function Compared(name: string, other: string): string {
    Cut(if Dotted(name) && !Dotted(other) then name[..Dot(name)] else name, MAX_DNS)
  }

  predicate DnsMatch(server: Option<string>, dns: string) {
    && server.Some? && server.value != "" && dns != ""
    && SameFolded(Compared(server.value, dns), Compared(dns, server.value))
  }

  /** How much of a name is compared. */
  function ComparedLength(name: string, other: string): (n: nat)
    ensures n <= |name|
  {
    var whole := if |name| < MAX_DNS then |name| else MAX_DNS;
    if Dotted(name) && !Dotted(other) && Dot(name) < whole then Dot(name) else whole
  }

  lemma ComparedIs(name: string, other: string)
    ensures Compared(name, other) == name[..ComparedLength(name, other)]
  {
    hide Dot;
  }

  /** The comparison as it is made, on lengths. */
  method CompareNames(server: Option<string>, dns: string) returns (same: bool)
    ensures same == DnsMatch(server, dns)
  {
    hide Lower, Dot, Compared;
    if server.None? {
      return false;
    }
    var name := server.value;
    var nameLen := if |name| < MAX_DNS then |name| else MAX_DNS;
    if nameLen == 0 {
      return false;
    }
    var dnsLen := if |dns| < MAX_DNS then |dns| else MAX_DNS;
    if dnsLen == 0 {
      return false;
    }
    var compareLen := 0;
    if Dotted(name) {
      compareLen := if Dot(name) > nameLen then nameLen else Dot(name);
    }
    if Dotted(dns) {
      compareLen := if Dot(dns) > dnsLen then dnsLen else Dot(dns);
    }
    if Dotted(dns) && !Dotted(name) {
      dnsLen := compareLen;
    } else if !Dotted(dns) && Dotted(name) {
      nameLen := compareLen;
    }
    ComparedIs(name, dns);
    ComparedIs(dns, name);
    assert nameLen == ComparedLength(name, dns) && dnsLen == ComparedLength(dns, name);
    if nameLen != dnsLen {
      return false;
    }
    same := true;
    var i := 0;
    while i < nameLen
      invariant i <= nameLen
      invariant same <==> forall j :: 0 <= j < i ==> Lower(name[j]) == Lower(dns[j])
    {
      if Lower(name[i]) != Lower(dns[i]) {
        same := false;
      }
      i := i + 1;
    }
  }

  /** The name, and not the address, makes the match. */
  predicate DnsOnly(s: Session, r: Request)
    requires r.ByAddress?
  {
    !AddressMatch(s.address, r.address) && r.dns.Some? && DnsMatch(s.server, r.dns.value)
  }

  predicate Candidate(s: Session, r: Request)
    requires r.ByAddress?
  {
    && s.authenticated
    && (AddressMatch(s.address, r.address) || DnsOnly(s, r))
    && s.uid == r.owner
    && s.hifi == r.hifi
  }

  predicate SameUser(s: Session, name: string) {
    s.username.Some? && Cut(s.username.value, MAX_USERNAME + 1) == Cut(name, MAX_USERNAME + 1)
  }

  /** The session's kind of authentication suits the request. */
  predicate Suits(s: Session, r: Request)
    requires r.ByAddress?
  {
    || s.access.simpleSharing
    || (&& r.access.privateGuest == s.access.privateGuest
        && (r.access.privateGuest ||
            (&& r.access.anonymous == s.access.anonymous
             && (r.access.anonymous ||
                 (&& (r.access.kerberos ==> s.access.kerberos)
                  && (!r.access.kerberos && r.access.guest ==> s.access.guest)
                  && (!r.access.kerberos && !r.access.guest && r.username.Some? && r.username.value != "" ==>
                      SameUser(s, r.username.value)))))))
  }

  predicate Usable(s: Session, r: Request)
    requires r.ByAddress?
  {
    s.active && !s.reconnecting && Suits(s, r)
  }

  /** The search stops here. */
  predicate Stops(s: Session, r: Request) {
    match r
    case BySession(id) => s.id == id
    case ByAddress(_, _, _, _, _, _) => Candidate(s, r) && (s.gone || Usable(s, r))
  }

  ghost predicate FirstStop(list: seq<Session>, r: Request, i: nat) {
    && i < |list| && Stops(list[i], r)
    && forall j :: 0 <= j < i ==> !Stops(list[j], r)
  }

  /** One attempt on the list as it stands. */
  function Attempt(list: seq<Session>, r: Request, from: nat): Outcome
    requires from <= |list|
    decreases |list| - from
  {
    if from == |list| then NotFound
    else if !Stops(list[from], r) then Attempt(list, r, from + 1)
    else if !list[from].gone then Found(from)
    else if r.BySession? then Busy
    else Retry
  }

  function Verdict(list: seq<Session>, r: Request, i: nat): Outcome
    requires i < |list|
  {
    if !list[i].gone then Found(i) else if r.BySession? then Busy else Retry
  }

  lemma {:induction false} AttemptStops(list: seq<Session>, r: Request, from: nat, i: nat)
    requires FirstStop(list, r, i) && from <= i
    ensures Attempt(list, r, from) == Verdict(list, r, i)
    decreases i - from
  {
    hide Stops;
    if from < i {
      AttemptStops(list, r, from + 1, i);
    }
  }

  lemma {:induction false} AttemptEnds(list: seq<Session>, r: Request, from: nat)
    requires from <= |list|
    ensures Attempt(list, r, from).NotFound? ==> forall j :: from <= j < |list| ==> !Stops(list[j], r)
    ensures (forall j :: from <= j < |list| ==> !Stops(list[j], r)) ==> Attempt(list, r, from).NotFound?
    decreases |list| - from
  {
    hide Stops;
    if from < |list| {
      AttemptEnds(list, r, from + 1);
    }
  }

  /** The outcome is that of the first session the search stops at, if there is one. */
  lemma AttemptMeans(list: seq<Session>, r: Request)
    ensures Attempt(list, r, 0).NotFound? <==> (forall j :: 0 <= j < |list| ==> !Stops(list[j], r))
    ensures forall i: nat :: FirstStop(list, r, i) ==> Attempt(list, r, 0) == Verdict(list, r, i)
  {
    hide Stops, Verdict;
    AttemptEnds(list, r, 0);
    forall i: nat | FirstStop(list, r, i)
      ensures Attempt(list, r, 0) == Verdict(list, r, i)
    {
      AttemptStops(list, r, 0, i);
    }
  }

  /** A session found is the one asked for, or one that may be shared: it is there to stay, it
      answers, and owner, mode, address and authentication fit. */
  lemma {:induction false} FoundIsRight(list: seq<Session>, r: Request, from: nat)
    requires from <= |list| && Attempt(list, r, from).Found?
    ensures var i := Attempt(list, r, from).index;
      && from <= i < |list| && !list[i].gone
      && (r.BySession? ==> list[i].id == r.id)
      && (r.ByAddress? ==> Candidate(list[i], r) && Usable(list[i], r))
    decreases |list| - from
  {
    if !Stops(list[from], r) {
      FoundIsRight(list, r, from + 1);
    }
  }

  // ----- All attempts -----

  /** The attempt that settles the search, and the list it finds; `Retry` if all that was given
      was used up. */
  function Search(list: seq<Session>, later: seq<seq<Session>>, r: Request): (Outcome, seq<Session>)
    decreases |later|
  {
    var o := Attempt(list, r, 0);
    if o.Retry? && later != [] then Search(later[0], later[1..], r) else (o, list)
  }

  /** Across all attempts: a session found is right, and if none is found there was none. */
  lemma {:induction false} SearchRight(list: seq<Session>, later: seq<seq<Session>>, r: Request)
    ensures var (o, world) := Search(list, later, r);
      && (world == list || world in later)
      && (o.Found? ==>
        && o.index < |world| && !world[o.index].gone
        && (r.BySession? ==> world[o.index].id == r.id)
        && (r.ByAddress? ==> Candidate(world[o.index], r) && Usable(world[o.index], r)))
      && (o.NotFound? ==> forall j :: 0 <= j < |world| ==> !Stops(world[j], r))
      && (o.Busy? ==> r.BySession?)
    decreases |later|
  {
    hide Candidate, Usable, Stops;
    var o := Attempt(list, r, 0);
    if o.Retry? && later != [] {
      SearchRight(later[0], later[1..], r);
    } else {
      AttemptEnds(list, r, 0);
      if o.Found? {
        FoundIsRight(list, r, 0);
      }
      BusyBySession(list, r, 0);
    }
  }

  lemma {:induction false} BusyBySession(list: seq<Session>, r: Request, from: nat)
    requires from <= |list|
    ensures Attempt(list, r, from).Busy? ==> r.BySession?
    decreases |list| - from
  {
    hide Stops;
    if from < |list| {
      BusyBySession(list, r, from + 1);
    }
  }

  // ----- What may be shared -----

  /** The two names are the same up to case: as wholes if both or neither have a dot, up to the first dot of the one
      that has one otherwise; of each at most 255 characters count. */
  ghost predicate SameServer(a: string, b: string) {
    var m := if Dotted(a) && !Dotted(b) && Dot(a) < MAX_DNS then Dot(a) else if |a| < MAX_DNS then |a| else MAX_DNS;
    var n := if Dotted(b) && !Dotted(a) && Dot(b) < MAX_DNS then Dot(b) else if |b| < MAX_DNS then |b| else MAX_DNS;
    a != "" && b != "" && m == n && m <= |a| && n <= |b| && forall i :: 0 <= i < m ==> Lower(a[i]) == Lower(b[i])
  }

  lemma DnsMatchMeans(server: Option<string>, dns: string)
    ensures DnsMatch(server, dns) <==> server.Some? && SameServer(server.value, dns)
  {
    hide Dot, Lower, Compared;
    if server.Some? {
      ComparedIs(server.value, dns);
      ComparedIs(dns, server.value);
    }
  }

  /** The session is at the address asked for, or inside it for a NetBIOS one, or has the name asked for. */
  ghost predicate Located(s: Session, r: Request)
    requires r.ByAddress?
  {
    || (s.address.Some? && s.address.value == r.address)
    || (s.address.Some? && s.address.value.NetBios? && r.address.Inet? && s.address.value.inner == r.address.bytes)
    || (r.dns.Some? && s.server.Some? && SameServer(s.server.value, r.dns.value))
  }

  /** A request that is neither private guest nor anonymous is met: Kerberos by Kerberos, a guest by a guest, a name by
      the same name, and no name by any. */
  ghost predicate Meets(s: Session, r: Request)
    requires r.ByAddress?
  {
    if r.access.kerberos then s.access.kerberos
    else if r.access.guest then s.access.guest
    else r.username.None? || r.username.value == "" || SameUser(s, r.username.value)
  }

  /**
   A live session may be shared exactly if it is authenticated, active and not reconnecting, is where it is asked for,
   and has the owner and the mode of the request; and, unless it has simple file sharing, private guests share with
   private guests, anonymous users with anonymous users, and the others with a session that meets them.
   */
  lemma ShareMeans(s: Session, r: Request)
    requires r.ByAddress? && !s.gone
    ensures Stops(s, r) <==>
      && s.authenticated && s.active && !s.reconnecting && Located(s, r) && s.uid == r.owner && s.hifi == r.hifi
      && (s.access.simpleSharing || r.access.privateGuest == s.access.privateGuest)
      && (s.access.simpleSharing || r.access.privateGuest || r.access.anonymous == s.access.anonymous)
      && (s.access.simpleSharing || r.access.privateGuest || r.access.anonymous || Meets(s, r))
  {
    hide SameServer, DnsMatch, SameUser;
    if r.dns.Some? { DnsMatchMeans(s.server, r.dns.value); }
  }

  // ----- The name flag -----

  /** The name of an authenticated session, and not its address, is the one asked for. */
  predicate Flagged(s: Session, r: Request) {
    r.ByAddress? && s.authenticated && DnsOnly(s, r)
  }

  /** The name flag after one attempt: that of the last session visited. */
  function Flag(list: seq<Session>, r: Request, from: nat, flag: bool): bool
    requires from <= |list|
    decreases |list| - from
  {
    if from == |list| then flag
    else if Stops(list[from], r) then Flagged(list[from], r)
    else Flag(list, r, from + 1, Flagged(list[from], r))
  }

  function SearchFlag(list: seq<Session>, later: seq<seq<Session>>, r: Request, flag: bool): bool
    decreases |later|
  {
    var now := Flag(list, r, 0, flag);
    if Attempt(list, r, 0).Retry? && later != [] then SearchFlag(later[0], later[1..], r, now) else now
  }

  /** The session the search stopped at, or the last one if it stopped at none. */
  ghost predicate LastVisited(list: seq<Session>, r: Request, i: nat) {
    FirstStop(list, r, i) || (i + 1 == |list| && forall j :: 0 <= j < |list| ==> !Stops(list[j], r))
  }

  lemma {:induction false} FlagMeans(list: seq<Session>, r: Request, from: nat, flag: bool, i: nat)
    requires from <= i < |list| && LastVisited(list, r, i)
    ensures Flag(list, r, from, flag) == Flagged(list[i], r)
    decreases i - from
  {
    hide Stops, Flagged;
    if from < i {
      FlagMeans(list, r, from + 1, Flagged(list[from], r), i);
    }
  }

  lemma {:induction false} AttemptVisits(list: seq<Session>, r: Request, from: nat) returns (i: nat)
    requires from < |list| && forall j :: 0 <= j < from ==> !Stops(list[j], r)
    ensures i < |list| && LastVisited(list, r, i)
    decreases |list| - from
  {
    hide Stops;
    if Stops(list[from], r) || from + 1 == |list| {
      i := from;
    } else {
      i := AttemptVisits(list, r, from + 1);
    }
  }

  /** The list of the last attempt that had a session to visit. */
  function LastSeen(list: seq<Session>, later: seq<seq<Session>>, r: Request): seq<Session>
    decreases |later|
  {
    if Attempt(list, r, 0).Retry? && later != [] then
      var seen := LastSeen(later[0], later[1..], r);
      if seen == [] then list else seen
    else list
  }

  /** Found or not, the flag tells of the last session visited in the last attempt that had one to
      visit; if none had, it is what the caller had put there. */
  lemma {:induction false} SearchFlagMeans(list: seq<Session>, later: seq<seq<Session>>, r: Request, flag: bool)
    ensures var seen := LastSeen(list, later, r);
      && (Search(list, later, r).1 != [] ==> seen == Search(list, later, r).1)
      && (seen == [] ==> SearchFlag(list, later, r, flag) == flag)
      && (forall i: nat :: LastVisited(seen, r, i) && i < |seen| ==>
        SearchFlag(list, later, r, flag) == Flagged(seen[i], r))
      && (seen != [] ==> exists i: nat :: i < |seen| && LastVisited(seen, r, i))
    decreases |later|
  {
    hide Stops, Flagged;
    AttemptFlag(list, r, flag);
    if Attempt(list, r, 0).Retry? && later != [] {
      SearchFlagMeans(later[0], later[1..], r, Flag(list, r, 0, flag));
    }
  }

  lemma AttemptFlag(list: seq<Session>, r: Request, flag: bool)
    ensures list == [] ==> Flag(list, r, 0, flag) == flag
    ensures forall i: nat :: LastVisited(list, r, i) && i < |list| ==> Flag(list, r, 0, flag) == Flagged(list[i], r)
    ensures list != [] ==> exists i: nat :: i < |list| && LastVisited(list, r, i)
  {
    hide Stops, Flagged;
    if list != [] {
      var i := AttemptVisits(list, r, 0);
      forall i: nat | LastVisited(list, r, i) && i < |list|
        ensures Flag(list, r, 0, flag) == Flagged(list[i], r)
      {
        FlagMeans(list, r, 0, flag, i);
      }
    }
  }

  /** The outcome in terms of the last session visited: none is found exactly when it is passed over or gone. */
  lemma {:induction false} SearchEnds(list: seq<Session>, later: seq<seq<Session>>, r: Request, i: nat)
    requires i < |LastSeen(list, later, r)| && LastVisited(LastSeen(list, later, r), r, i)
    ensures var s := LastSeen(list, later, r)[i];
      Search(list, later, r).0.Found? <==> Stops(s, r) && !s.gone
    decreases |later|
  {
    hide Stops;
    if Attempt(list, r, 0).Retry? && later != [] {
      if LastSeen(later[0], later[1..], r) != [] {
        SearchEnds(later[0], later[1..], r, i);
      } else {
        SeenNone(later[0], later[1..], r);
        AttemptMeans(list, r);
      }
    } else {
      AttemptMeans(list, r);
    }
  }

  lemma SeenNone(list: seq<Session>, later: seq<seq<Session>>, r: Request)
    requires LastSeen(list, later, r) == []
    ensures list == [] && Search(list, later, r).0.NotFound?
  {
    assert list == [];
  }

  /** The flag is set by the search and no session is found. */
  predicate FlagMisleads(list: seq<Session>, later: seq<seq<Session>>, r: Request, flag: bool) {
    !Search(list, later, r).0.Found? && SearchFlag(list, later, r, flag)
  }

  /** A session whose name alone is asked for, and that is passed over or gone. */
  predicate Misses(s: Session, r: Request) {
    Flagged(s, r) && (!Stops(s, r) || s.gone)
  }

  /** No session is found and the flag is set exactly when the last session visited has the name
      asked for and is passed over or gone, or there was none to visit and the caller had set it. */
  lemma FlagMisleadsWhen(list: seq<Session>, later: seq<seq<Session>>, r: Request, flag: bool)
    ensures var seen := LastSeen(list, later, r);
      FlagMisleads(list, later, r, flag) <==>
        (if seen == [] then flag else exists i: nat :: i < |seen| && LastVisited(seen, r, i) && Misses(seen[i], r))
  {
    hide Stops, Flagged, Search, SearchFlag, LastVisited, LastSeen;
    var seen := LastSeen(list, later, r);
    SearchFlagMeans(list, later, r, flag);
    if seen == [] {
      SeenNone(list, later, r);
    } else {
      var i: nat :| i < |seen| && LastVisited(seen, r, i);
      SearchEnds(list, later, r, i);
      forall k: nat | k < |seen| && LastVisited(seen, r, k)
        ensures Search(list, later, r).0.Found? <==> Stops(seen[k], r) && !seen[k].gone
      {
        SearchEnds(list, later, r, k);
      }
    }
  }

  /** A session that is going away sets the flag, and an empty list at the second attempt leaves it. */
  lemma FlagAfterRetry(s: Session, r: Request)
    requires Flagged(s, r) && Stops(s, r) && s.gone
    ensures Search([s], [[]], r).0.NotFound? && SearchFlag([s], [[]], r, false)
  {
    assert Attempt([s], r, 0).Retry?;
    var later: seq<seq<Session>> := [[]];
    assert later[1..] == [];
    assert Search([], [], r) == (NotFound, []);
    assert SearchFlag([], [], r, true);
  }

  /** A session of another owner that has the name asked for: none is found, and the flag is set. */
  lemma FlagWithoutSession(s: Session, r: Request)
    requires Flagged(s, r) && s.uid != r.owner
    ensures Search([s], [], r).0.NotFound? && SearchFlag([s], [], r, false)
  {
    assert !Stops(s, r);
    assert Attempt([s], r, 1).NotFound?;
    assert Flag([s], r, 1, Flagged(s, r));
  }

  lemma FlagExample()
    ensures var nobody := Access(false, false, false, false, false);
      var s := Session(1, true, None, Some("srv"), 501, false, true, false, nobody, None, false, 0, 1);
      var r := ByAddress(Inet([]), 502, None, nobody, Some("SRV"), false);
      Search([s], [], r).0.NotFound? && SearchFlag([s], [], r, false)
  {
    var nobody := Access(false, false, false, false, false);
    var s := Session(1, true, None, Some("srv"), 501, false, true, false, nobody, None, false, 0, 1);
    var r := ByAddress(Inet([]), 502, None, nobody, Some("SRV"), false);
    assert !Dotted("srv") && !Dotted("SRV");
    assert SameFolded("srv", "SRV");
    FlagWithoutSession(s, r);
  }

  /** What a search leaves behind. */
  function Taken(list: seq<Session>, o: Outcome): seq<Session> {
    if o.Found? && o.index < |list|
    then list[o.index := list[o.index].(depth := list[o.index].depth + 1, uses := list[o.index].uses + 1)]
    else list
  }

  class SessionList {
    var sessions: seq<Session>
    var listDepth: nat

    method LockSession(i: nat) returns (error: bool)
      requires i < |sessions|
      modifies this`sessions
      ensures error == old(sessions)[i].gone
      ensures sessions == if error then old(sessions)
        else old(sessions)[i := old(sessions)[i].(depth := old(sessions)[i].depth + 1)]
    {
      if sessions[i].gone {
        return true;
      }
      sessions := sessions[i := sessions[i].(depth := sessions[i].depth + 1)];
      error := false;
    }

    method UnlockSession(i: nat)
      requires i < |sessions| && sessions[i].depth > 0
      modifies this`sessions
      ensures sessions == old(sessions)[i := old(sessions)[i].(depth := old(sessions)[i].depth - 1)]
    {
      sessions := sessions[i := sessions[i].(depth := sessions[i].depth - 1)];
    }

    /** Does the authentication of a locked session fit? If not, it is unlocked. */
    method CheckAccess(i: nat, r: Request) returns (fits: bool)
      requires i < |sessions| && sessions[i].depth > 0 && r.ByAddress?
      modifies this`sessions
      ensures fits == Suits(old(sessions)[i], r)
      ensures sessions == if fits then old(sessions)
        else old(sessions)[i := old(sessions)[i].(depth := old(sessions)[i].depth - 1)]
    {
      var user, session := r.access, sessions[i].access;
      if session.simpleSharing {
        return true;
      } else if user.privateGuest || session.privateGuest {
        if user.privateGuest && session.privateGuest {
          return true;
        }
        UnlockSession(i);
        return false;
      } else if user.anonymous || session.anonymous {
        if user.anonymous && session.anonymous {
          return true;
        }
        UnlockSession(i);
        return false;
      } else if user.kerberos {
        if session.kerberos {
          return true;
        }
        UnlockSession(i);
        return false;
      } else if user.guest {
        if session.guest {
          return true;
        }
        UnlockSession(i);
        return false;
      } else if r.username.Some? && r.username.value != "" {
        if SameUser(sessions[i], r.username.value) {
          return true;
        }
        UnlockSession(i);
        return false;
      }
      return true;
    }

    /** One session of the list: not the one, or the end of the search. */
    method Visit(i: nat, r: Request) returns (o: Option<Outcome>, matched: bool)
      requires i < |sessions|
      modifies this`sessions
      ensures var s := old(sessions)[i];
        && (o.None? <==> !Stops(s, r))
        && (o.Some? ==> o.value == if !s.gone then Found(i) else if r.BySession? then Busy else Retry)
        && (sessions == if o == Some(Found(i)) then old(sessions)[i := s.(depth := s.depth + 1)] else old(sessions))
        && matched == Flagged(s, r)
    {
      matched := false;
      var s := sessions[i];
      if r.BySession? {
        if s.id != r.id {
          return None, false;
        }
        var error := LockSession(i);
        return Some(if error then Busy else Found(i)), false;
      }
      if !s.authenticated {
        return None, false;
      }
      if !AddressMatch(s.address, r.address) {
        if r.dns.None? {
          return None, false;
        }
        var same := CompareNames(s.server, r.dns.value);
        if !same {
          return None, false;
        }
        matched := true;
      }
      if s.uid != r.owner {
        return None, matched;
      }
      if (!s.hifi && r.hifi) || (s.hifi && !r.hifi) {
        return None, matched;
      }
      var error := LockSession(i);
      if error {
        return Some(Retry), matched;
      }
      assert sessions[i := s] == old(sessions);
      if !s.active || s.reconnecting {
        UnlockSession(i);
        return None, matched;
      }
      var fits := CheckAccess(i, r);
      o := if fits then Some(Found(i)) else None;
    }

    /** One attempt, with the list locked: at most the session found is changed. */
    method Scan(r: Request, flag: bool) returns (o: Outcome, matched: bool)
      modifies this`sessions
      ensures o == Attempt(old(sessions), r, 0)
      ensures o.Found? ==> o.index < |old(sessions)|
      ensures o.Found? ==>
        sessions == old(sessions)[o.index := old(sessions)[o.index].(depth := old(sessions)[o.index].depth + 1)]
      ensures !o.Found? ==> sessions == old(sessions)
      ensures matched == Flag(old(sessions), r, 0, flag)
    {
      hide Stops, Flagged;
      matched := flag;
      ghost var list := sessions;
      var i := 0;
      while i < |sessions|
        invariant i <= |sessions| && sessions == list
        invariant Attempt(list, r, 0) == Attempt(list, r, i)
        invariant Flag(list, r, 0, flag) == Flag(list, r, i, matched)
      {
        var v;
        v, matched := Visit(i, r);
        if v.Some? {
          return v.value, matched;
        }
        i := i + 1;
      }
      o := NotFound;
    }

    /**
     The whole search. A session found has one more lock level and one more use; every other
     session, and the lock on the list, are as they were; a failure changes nothing.
     */
    method LookupInt(r: Request, later: seq<seq<Session>>, flag: bool) returns (o: Outcome, matched: bool)
      modifies this
      ensures listDepth == old(listDepth)
      ensures var (end, list) := Search(old(sessions), later, r);
        && o == end && sessions == Taken(list, end)
        && (end.Found? ==>
              && end.index < |sessions| == |list| && sessions[end.index].uses == list[end.index].uses + 1
              && sessions[end.index].depth == list[end.index].depth + 1
              && forall i :: 0 <= i < |list| && i != end.index ==> sessions[i] == list[i])
      ensures matched == SearchFlag(old(sessions), later, r, flag)
    {
      hide Attempt, Flag;
      matched := flag;
      var k := 0;
      ghost var list := sessions;
      while true
        invariant k <= |later| && sessions == list && listDepth == old(listDepth)
        invariant Search(old(sessions), later, r) == Search(list, later[k..], r)
        invariant SearchFlag(old(sessions), later, r, flag) == SearchFlag(list, later[k..], r, matched)
        decreases |later| - k
      {
        listDepth := listDepth + 1;
        o, matched := Scan(r, matched);
        if o.Retry? {
          listDepth := listDepth - 1;
          if k == |later| {
            return;
          }
          assert later[k..][1..] == later[k + 1..];
          sessions := later[k];
          list := later[k];
          k := k + 1;
        } else {
          if o.Found? {
            sessions := sessions[o.index := sessions[o.index].(uses := sessions[o.index].uses + 1)];
          }
          listDepth := listDepth - 1;
          return;
        }
      }
    }
  }
}
