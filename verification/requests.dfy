/**
 * Request-side helpers: the cookie parser, the admin authorisation decision,
 * the IPv4 normalisation used by the "seen with this IP" check, and the
 * validation cascades of the three settings endpoints.
 */
module Requests {
  import opened Options
  import opened JsNumber
  import opened JsString
  import opened Replies

  // ---------------------------------------------------------------- cookies

  /** The first `c`-separated part of `s` is the text before the first `c`. */
  lemma SplitHead(s: string, c: char)
    ensures c in s ==> Split(s, c)[0] == s[..IndexOf(s, c)]
    ensures c !in s ==> Split(s, c) == [s]
  {
  }

  /** Re-joining every part after the first gives back the text after the first `c`. */
  lemma SplitTailJoin(s: string, c: char)
    ensures c in s ==> Join(Split(s, c)[1..], c) == s[IndexOf(s, c) + 1..]
    ensures c !in s ==> Join(Split(s, c)[1..], c) == ""
  {
    if c in s {
      var i := IndexOf(s, c);
      assert Split(s, c)[1..] == Split(s[i + 1..], c);
    }
  }

  /**
   * One `name=value` segment (lines 1405-1408): the name is the trimmed text
   * before the first '=', the value the unescaped rest, '=' included.
   */
  function CookieOf(segment: string, unescape: string -> string): (e: Entry)
    ensures '=' in segment ==>
      e == Entry(Trim(segment[..IndexOf(segment, '=')]), unescape(segment[IndexOf(segment, '=') + 1..]))
    ensures '=' !in segment ==> e == Entry(Trim(segment), unescape(""))
  {
    var parts := Split(segment, '=');
    SplitHead(segment, '=');
    SplitTailJoin(segment, '=');
    Entry(Trim(parts[0]), unescape(Join(parts[1..], '=')))
  }

  /**
   * `parseCookies` (lines 1402-1410): one entry per `;` segment of a present,
   * non-empty Cookie header, in order; looking a name up with `Get` gives the
   * last segment carrying it, as the assignments into `list` do.
   */
  function ParseCookies(header: Option<string>, unescape: string -> string): (jar: Hash)
    ensures !TruthyText(header) ==> jar == []
    ensures TruthyText(header) ==> |jar| == |Split(header.value, ';')|
    ensures TruthyText(header) ==>
      forall i :: 0 <= i < |jar| ==> jar[i] == CookieOf(Split(header.value, ';')[i], unescape)
  {
    if TruthyText(header) then
      var segments := Split(header.value, ';');
      seq(|segments|, i requires 0 <= i < |segments| => CookieOf(segments[i], unescape))
    else []
  }

  /** One step of `Split`: the text before the first `c`, then the parts of the rest. */
  lemma SplitUnfold(s: string, c: char)
    requires c in s
    ensures Split(s, c) == [s[..IndexOf(s, c)]] + Split(s[IndexOf(s, c) + 1..], c)
  {
  }

  /** Appending after text that holds `c` leaves its first part where it was. */
  lemma SplitAppendStep(s: string, c: char, t: string)
    requires c in s
    ensures Split(s + [c] + t, c) == [s[..IndexOf(s, c)]] + Split(s[IndexOf(s, c) + 1..] + [c] + t, c)
  {
    var whole := s + [c] + t;
    var i := IndexOf(s, c);
    var tail := s[i + 1..] + [c] + t;
    assert IndexOf(whole, c) == i && whole[..i] == s[..i] && whole[i + 1..] == tail by {
      assert whole == s[..i] + [c] + tail;
      IndexOfAfterFree(s[..i], c, tail);
    }
    SplitUnfold(whole, c);
  }

  /** Appending after text free of `c` gives exactly two parts. */
  lemma SplitAppendFree(s: string, c: char, t: string)
    requires c !in s && c !in t
    ensures Split(s + [c] + t, c) == [s, t]
  {
    var whole := s + [c] + t;
    assert IndexOf(whole, c) == |s| && whole[..|s|] == s && whole[|s| + 1..] == t by {
      IndexOfAfterFree(s, c, t);
    }
    SplitUnfold(whole, c);
  }

  /** Appending a separator-free segment appends one part. */
  lemma {:induction false} SplitSnoc(s: string, c: char, t: string)
    requires c !in t
    ensures Split(s + [c] + t, c) == Split(s, c) + [t]
    decreases |s|
  {
    if c in s {
      var i := IndexOf(s, c);
      SplitAppendStep(s, c, t);
      SplitSnoc(s[i + 1..], c, t);
      SplitUnfold(s, c);
    } else {
      SplitAppendFree(s, c, t);
    }
  }

  /** A `name=value` segment with a clean name parses to that name and the unescaped value. */
  lemma SegmentParses(name: string, value: string, unescape: string -> string)
    requires '=' !in name && Trim(name) == name
    ensures CookieOf(name + "=" + value, unescape) == Entry(name, unescape(value))
  {
    var seg := name + "=" + value;
    var i := |name|;
    assert '=' in seg && IndexOf(seg, '=') == i && seg[..i] == name && seg[i + 1..] == value by {
      assert seg == name + ['='] + value;
      assert seg[i] == '=';
      IndexOfAfterFree(name, '=', value);
    }
  }

  /** A separator-free segment appended after `;` is the jar's last entry. */
  lemma LastSegment(before: string, seg: string, unescape: string -> string)
    requires ';' !in seg
    ensures var jar := ParseCookies(Some(before + ";" + seg), unescape);
      |jar| > 0 && jar[|jar| - 1] == CookieOf(seg, unescape)
  {
    var header := before + ";" + seg;
    assert Split(header, ';') == Split(before, ';') + [seg] by {
      assert header == before + [';'] + seg;
      SplitSnoc(before, ';', seg);
    }
    assert TruthyText(Some(header));
  }

  /** The entry listed last is the one read for its field. */
  lemma GetLast(h: Hash, f: string)
    requires |h| > 0 && h[|h| - 1].field == f
    ensures Get(h, f) == Some(h[|h| - 1].value)
  {
  }

  /** The cookie written last in the header is the one read: `name=value` appended after any header. */
  lemma LastCookieWins(before: string, name: string, value: string, unescape: string -> string)
    requires '=' !in name && ';' !in name && ';' !in value
    requires Trim(name) == name
    ensures Get(ParseCookies(Some(before + ";" + name + "=" + value), unescape), name) == Some(unescape(value))
  {
    var seg := name + "=" + value;
    assert before + ";" + seg == before + ";" + name + "=" + value;
    assert ';' !in seg by {
      assert seg == name + ['='] + value;
    }
    LastSegment(before, seg, unescape);
    SegmentParses(name, value, unescape);
    GetLast(ParseCookies(Some(before + ";" + seg), unescape), name);
  }

  // ---------------------------------------------------------- authorisation

  /** What `authorize` reads from a request. */
  datatype AuthRequest = AuthRequest(
    remote: string,                // request.connection.remoteAddress
    forwardedFor: Option<string>,  // the X-Forwarded-For header
    cookie: Option<string>,        // the Cookie header
    password: Option<string>)      // the `password` query parameter

  /** The configuration it compares against; `sid` is the process's `authSid`. */
  datatype AuthConfig = AuthConfig(trustProxy: bool, password: Option<string>, sid: string)

  /** How a request fares: loopback, valid session cookie, password login, or 401. */
  datatype AuthOutcome = Loopback | Session | Login | Denied

  /** The address `authorize` checks: the forwarded one only behind a trusted proxy. */
  function ClientAddress(r: AuthRequest, cfg: AuthConfig): (a: string)
    ensures cfg.trustProxy && TruthyText(r.forwardedFor) ==> a == r.forwardedFor.value
    ensures !(cfg.trustProxy && TruthyText(r.forwardedFor)) ==> a == r.remote
  {
    if cfg.trustProxy && TruthyText(r.forwardedFor) then r.forwardedFor.value else r.remote
  }

  predicate IsLoopback(a: string)
  {
    a == "127.0.0.1" || a == "::ffff:127.0.0.1" || a == "::1"
  }

  /** `cookies.sid && cookies.sid === authSid`. */
  predicate HasSession(r: AuthRequest, cfg: AuthConfig, unescape: string -> string)
  {
    var sid := Get(ParseCookies(r.cookie, unescape), "sid");
    TruthyText(sid) && sid.value == cfg.sid
  }

  /**
   * `authorize` (lines 1020-1054): loopback callers and holders of the
   * session cookie pass; otherwise the `password` parameter must equal the
   * configured one (both may be absent), and a match issues the cookie.
   */
  function Authorize(r: AuthRequest, cfg: AuthConfig, unescape: string -> string): (o: AuthOutcome)
    ensures o == Loopback <==> IsLoopback(ClientAddress(r, cfg))
    ensures o == Session <==> !IsLoopback(ClientAddress(r, cfg)) && HasSession(r, cfg, unescape)
    ensures o == Denied <==>
      !IsLoopback(ClientAddress(r, cfg)) && !HasSession(r, cfg, unescape) && r.password != cfg.password
  {
    if IsLoopback(ClientAddress(r, cfg)) then Loopback
    else if HasSession(r, cfg, unescape) then Session
    else if r.password != cfg.password then Denied
    else Login
  }

  /** With no configured password, a request without a password parameter is let in. */
  lemma UnsetPasswordAdmitsAnyone(r: AuthRequest, cfg: AuthConfig, unescape: string -> string)
    requires cfg.password.None? && r.password.None?
    ensures Authorize(r, cfg, unescape) != Denied
  {
  }

  /** Behind a trusted proxy the forwarded header alone decides loopback status. */
  lemma ForwardedLoopbackAdmits(r: AuthRequest, cfg: AuthConfig, unescape: string -> string)
    requires cfg.trustProxy && r.forwardedFor == Some("127.0.0.1")
    ensures Authorize(r, cfg, unescape) == Loopback
  {
  }

  /** The cookie issued on login (`sid=<authSid>`) opens a session on the next request. */
  lemma IssuedCookieOpensSession(r: AuthRequest, cfg: AuthConfig, unescape: string -> string, before: string)
    requires cfg.sid != "" && ';' !in cfg.sid && unescape(cfg.sid) == cfg.sid
    requires r.cookie == Some(before + ";" + "sid" + "=" + cfg.sid)
    requires !IsLoopback(ClientAddress(r, cfg))
    ensures Authorize(r, cfg, unescape) == Session
  {
    SidIsClean();
    assert Get(ParseCookies(r.cookie, unescape), "sid") == Some(cfg.sid) by {
      LastCookieWins(before, "sid", cfg.sid, unescape);
    }
    assert HasSession(r, cfg, unescape);
  }

  lemma SidIsClean()
    ensures '=' !in "sid" && ';' !in "sid" && Trim("sid") == "sid"
  {
    assert "sid" == ['s', 'i', 'd'];
  }

  // ------------------------------------------------------ IPv4 normalisation

  /** `\d{1,3}` */
  predicate Octet(t: string)
  {
    1 <= |t| <= 3 && AllDigits(t)
  }

  /** The whole of `t` matches `\d{1,3}\.\d{1,3}\.\d{1,3}\.\d{1,3}`. */
  predicate DottedQuad(t: string)
  {
    var p := Split(t, '.');
    |p| == 4 && Octet(p[0]) && Octet(p[1]) && Octet(p[2]) && Octet(p[3])
  }

  /** `ipv4_regex.test(ip)` for the unanchored pattern: some slice of `ip` matches. */
  predicate ContainsQuad(ip: string)
  {
    exists i, j :: 0 <= i <= j <= |ip| && DottedQuad(ip[i..j])
  }

  const MappedPrefix := "::ffff:"

  /** Lines 1389-1392 as written: any text containing a dotted quad is prefixed. */
  function NormalizeIpAsWritten(ip: string): (r: string)
    ensures ContainsQuad(ip) ==> r == MappedPrefix + ip
    ensures !ContainsQuad(ip) ==> r == ip
  {
    if ContainsQuad(ip) then MappedPrefix + ip else ip
  }

  /**
   * An address already in IPv4-mapped form, as the pool records connections,
   * is prefixed a second time, so the membership test can never match it.
   */
  lemma AsWrittenPrefixesMappedAgain(ip: string)
    requires DottedQuad(ip)
    ensures NormalizeIpAsWritten(MappedPrefix + ip) == MappedPrefix + MappedPrefix + ip
  {
    var s := MappedPrefix + ip;
    assert |MappedPrefix| == 7;
    assert s[7..|s|] == ip;
    assert ContainsQuad(s) by {
      assert 0 <= 7 <= |s| && DottedQuad(s[7..|s|]);
    }
    assert MappedPrefix + s == MappedPrefix + MappedPrefix + ip;
  }

  /** The four octets "1.2.3.4" form a dotted quad: a concrete input for the finding. */
  lemma SampleQuad()
    ensures DottedQuad("1.2.3.4")
  {
    var parts := ["1", "2", "3", "4"];
    assert Octet(parts[0]) && Octet(parts[1]) && Octet(parts[2]) && Octet(parts[3]) by {
      assert parts[0] == ['1'] && parts[1] == ['2'] && parts[2] == ['3'] && parts[3] == ['4'];
    }
    assert Split("1.2.3.4", '.') == parts by {
      assert Join(parts, '.') == "1.2.3.4" by {
        assert Join(parts[3..], '.') == ['4'];
        assert Join(parts[2..], '.') == ['3', '.', '4'];
        assert Join(parts[1..], '.') == ['2', '.', '3', '.', '4'];
        assert "1.2.3.4" == ['1', '.', '2', '.', '3', '.', '4'];
      }
      assert forall i :: 0 <= i < |parts| ==> '.' !in parts[i];
      SplitJoin(parts, '.');
    }
  }

  /** The anchored test: only a whole dotted quad is mapped. */
  function NormalizeIp(ip: string): (r: string)
    ensures DottedQuad(ip) ==> r == MappedPrefix + ip
    ensures !DottedQuad(ip) ==> r == ip
  {
    if DottedQuad(ip) then MappedPrefix + ip else ip
  }

  /** Text starting with ':' is never a dotted quad. */
  lemma ColonStartIsNotQuad(s: string)
    requires |s| > 0 && s[0] == ':'
    ensures !DottedQuad(s)
  {
    SplitHead(s, '.');
    var p0 := Split(s, '.')[0];
    if '.' in s {
      assert IndexOf(s, '.') > 0;
      assert p0[0] == ':';
    } else {
      assert p0[0] == ':';
    }
  }

  /** Normalising twice is normalising once, and plain IPv4 is mapped exactly as written. */
  lemma NormalizeIpIdempotent(ip: string)
    ensures NormalizeIp(NormalizeIp(ip)) == NormalizeIp(ip)
    ensures DottedQuad(ip) ==> NormalizeIp(ip) == NormalizeIpAsWritten(ip)
  {
    if DottedQuad(ip) {
      ColonStartIsNotQuad(MappedPrefix + ip);
      assert ip[0..|ip|] == ip;
    }
  }

  /**
   * `minerSeenWithIPForAddress` as written (lines 1388-1397): the unanchored
   * normalisation, then set membership; a failed read counts as not seen.
   */
  predicate SeenWithIp(members: Option<set<string>>, ip: string)
  {
    members.Some? && NormalizeIpAsWritten(ip) in members.value
  }

  /** The same test with the anchored normalisation. */
  predicate SeenWithIpCorrected(members: Option<set<string>>, ip: string)
  {
    members.Some? && NormalizeIp(ip) in members.value
  }

  /**
   * The two tests differ only on text that contains a dotted quad without
   * being one, such as an address already in `::ffff:` form.
   */
  lemma CorrectionOnlyAffectsMappedForms(members: Option<set<string>>, ip: string)
    requires DottedQuad(ip) || !ContainsQuad(ip)
    ensures SeenWithIp(members, ip) <==> SeenWithIpCorrected(members, ip)
  {
    assert ip[0..|ip|] == ip;
    assert DottedQuad(ip) ==> ContainsQuad(ip);
  }

  lemma StarFreePrefix(ip: string)
    requires '*' !in ip
    ensures '*' !in MappedPrefix + ip
  {
    assert MappedPrefix == [':', ':', 'f', 'f', 'f', 'f', ':'];
  }

  /**
   * As written, a payout request naming its IP in the `::ffff:` form the set
   * stores is refused as unseen, although the corrected test finds it.
   */
  lemma PayoutRefusesMappedForm(quad: string, address: string, level: string,
                                parseFloat: string -> Option<real>, rawMin: real)
    requires DottedQuad(quad) && '*' !in quad && '*' !in address
    requires parseFloat(level).Some? && parseFloat(level).value >= MinLevel(rawMin)
    ensures var ip := MappedPrefix + quad;
      && SetPayoutLevel(PayoutQuery(Some(address), Some(ip), Some(level)), parseFloat, rawMin, Some({ip}), true)
        == Answer(IpNotSeen, NoEffect)
      && SeenWithIpCorrected(Some({ip}), ip)
  {
    var ip := MappedPrefix + quad;
    StarFreePrefix(quad);
    AsWrittenPrefixesMappedAgain(quad);
    assert |NormalizeIpAsWritten(ip)| > |ip|;
    assert !SeenWithIp(Some({ip}), ip);
    NormalizeIpIdempotent(quad);
  }

  // ---------------------------------------------------- settings endpoints

  /** The `status` texts the settings endpoints answer with. */
  datatype Status =
    | ParametersIncomplete
    | WildcardInAddress
    | WildcardInInput
    | NotANumber
    | BelowMinimum(minLevel: real)
    | IpNotSeen
    | WriteFailed
    | InvalidAction
    | NoEmail
    | NoChatId
    | NoAddress
    | MinerNotFound
    | Done

  /**
   * A validation cascade as a list of (check passed, status when it fails):
   * the status of the first check that fails, or None when all pass.
   */
  function FirstFailure(checks: seq<(bool, Status)>): (r: Option<Status>)
    ensures r.None? <==> forall i :: 0 <= i < |checks| ==> checks[i].0
  {
    if |checks| == 0 then None
    else if !checks[0].0 then Some(checks[0].1)
    else
      assert forall i :: 1 <= i < |checks| ==> checks[i] == checks[1..][i - 1];
      FirstFailure(checks[1..])
  }

  /** The status found is that of a failing check all of whose predecessors pass. */
  lemma {:induction false} FirstFailureIsFirst(checks: seq<(bool, Status)>)
    requires FirstFailure(checks).Some?
    ensures exists i :: 0 <= i < |checks| && !checks[i].0 && checks[i].1 == FirstFailure(checks).value
                        && forall j :: 0 <= j < i ==> checks[j].0
  {
    if checks[0].0 {
      var rest := checks[1..];
      FirstFailureIsFirst(rest);
      var i :| 0 <= i < |rest| && !rest[i].0 && rest[i].1 == FirstFailure(rest).value
               && forall j :: 0 <= j < i ==> rest[j].0;
      forall j | 0 <= j < i + 1 ensures checks[j].0 {
        if j > 0 { assert checks[j] == rest[j - 1]; }
      }
      assert checks[i + 1] == rest[i];
    }
  }

  /** A check that fails after passing predecessors decides the cascade. */
  lemma {:induction false} FirstFailureAt(checks: seq<(bool, Status)>, i: nat)
    requires i < |checks| && !checks[i].0
    requires forall j :: 0 <= j < i ==> checks[j].0
    ensures FirstFailure(checks) == Some(checks[i].1)
  {
    if i > 0 {
      assert checks[0].0;
      forall j | 0 <= j < i - 1 ensures checks[1..][j].0 {
        assert checks[1..][j] == checks[j + 1];
      }
      FirstFailureAt(checks[1..], i - 1);
    }
  }

  /** The exact text of each status; `show` formats a number as JavaScript does. */
  function StatusText(s: Status, show: real -> string): string
  {
    match s
    case ParametersIncomplete => "Parameters are incomplete"
    case WildcardInAddress => "Remove the wildcard from your miner address"
    case WildcardInInput => "Remove the wildcard from your input"
    case NotANumber => "Your minimum payout level doesn't look like a number"
    case BelowMinimum(m) => "The minimum payout level is " + show(m)
    case IpNotSeen => "We haven't seen that IP for your address"
    case WriteFailed => "An error occurred when updating the value in our database"
    case InvalidAction => "Invalid action"
    case NoEmail => "No email address specified"
    case NoChatId => "No chat id specified"
    case NoAddress => "No miner address specified"
    case MinerNotFound => "Miner not found in database"
    case Done => "done"
  }

  /** The database write a request asks for, if it gets that far. */
  datatype Effect =
    | NoEffect
    | StoreLevel(address: string, level: real)
    | SetEmail(address: string, email: string)
    | ClearEmail(address: string)
    | SetChat(address: string, chatId: string)
    | ClearChat(address: string)

  datatype Answer = Answer(status: Status, effect: Effect)

  /** `config.payments.minPayment / config.coinUnits`, raised to 0 when negative. */
  function MinLevel(raw: real): (m: real)
    ensures m >= 0.0 && m >= raw
    ensures raw >= 0.0 ==> m == raw
    ensures raw < 0.0 ==> m == 0.0
  {
    if raw < 0.0 then 0.0 else raw
  }

  datatype PayoutQuery = PayoutQuery(address: Option<string>, ip: Option<string>, level: Option<string>)

  predicate PayoutComplete(q: PayoutQuery)
  {
    q.address.Some? && q.ip.Some? && q.level.Some?
  }

  predicate NoWildcard(address: string, ip: string)
  {
    '*' !in ip && '*' !in address
  }

  /**
   * `handleSetMinerPayoutLevel` (lines 759-812): the first failing check
   * answers; only a request passing all of them asks for the write, and it is
   * "done" exactly when that write succeeds. `parseFloat` gives None for NaN.
   * The stored value (level times coin units) is floating point and left out:
   * the effect carries the parsed level.
   */
  function SetPayoutLevel(q: PayoutQuery, parseFloat: string -> Option<real>, rawMin: real,
                          members: Option<set<string>>, writeOk: bool): (a: Answer)
    ensures a.status == ParametersIncomplete <==> !PayoutComplete(q)
    ensures a.status == WildcardInAddress <==>
      PayoutComplete(q) && !NoWildcard(q.address.value, q.ip.value)
    ensures a.status == NotANumber <==>
      PayoutComplete(q) && NoWildcard(q.address.value, q.ip.value) && parseFloat(q.level.value).None?
    ensures a.status.BelowMinimum? ==> a.status.minLevel == MinLevel(rawMin)
    ensures a.status.BelowMinimum? <==>
      PayoutComplete(q) && NoWildcard(q.address.value, q.ip.value) && parseFloat(q.level.value).Some?
      && parseFloat(q.level.value).value < MinLevel(rawMin)
    ensures a.effect != NoEffect <==>
      PayoutComplete(q) && NoWildcard(q.address.value, q.ip.value) && parseFloat(q.level.value).Some?
      && parseFloat(q.level.value).value >= MinLevel(rawMin) && SeenWithIp(members, q.ip.value)
    ensures a.status == IpNotSeen <==>
      PayoutComplete(q) && NoWildcard(q.address.value, q.ip.value) && parseFloat(q.level.value).Some?
      && parseFloat(q.level.value).value >= MinLevel(rawMin) && !SeenWithIp(members, q.ip.value)
    ensures a.effect != NoEffect ==> a.effect == StoreLevel(q.address.value, parseFloat(q.level.value).value)
    ensures a.status == Done <==> a.effect != NoEffect && writeOk
    ensures a.status == WriteFailed <==> a.effect != NoEffect && !writeOk
  {
    if !PayoutComplete(q) then Answer(ParametersIncomplete, NoEffect)
    else
      var address, ip := q.address.value, q.ip.value;
      if !NoWildcard(address, ip) then Answer(WildcardInAddress, NoEffect)
      else
        var level := parseFloat(q.level.value);
        if level.None? then Answer(NotANumber, NoEffect)
        else if level.value < MinLevel(rawMin) then Answer(BelowMinimum(MinLevel(rawMin)), NoEffect)
        else if !SeenWithIp(members, ip) then Answer(IpNotSeen, NoEffect)
        else Answer(if writeOk then Done else WriteFailed, StoreLevel(address, level.value))
  }

  /** The checks of lines 774-804, in order; each is read as if the earlier ones passed. */
  function PayoutChecks(q: PayoutQuery, parseFloat: string -> Option<real>, rawMin: real,
                        members: Option<set<string>>): seq<(bool, Status)>
  {
    var complete := PayoutComplete(q);
    [ (complete, ParametersIncomplete),
      (!complete || NoWildcard(q.address.value, q.ip.value), WildcardInAddress),
      (!complete || parseFloat(q.level.value).Some?, NotANumber),
      (!complete || parseFloat(q.level.value).None? || parseFloat(q.level.value).value >= MinLevel(rawMin),
       BelowMinimum(MinLevel(rawMin))),
      (!complete || SeenWithIp(members, q.ip.value), IpNotSeen) ]
  }

  /**
   * The payout endpoint is the cascade of its checks followed by the write:
   * the first failing check answers and writes nothing, and a request that
   * passes them all is written and answered by the write's outcome.
   */
  lemma PayoutIsCascade(q: PayoutQuery, parseFloat: string -> Option<real>, rawMin: real,
                        members: Option<set<string>>, writeOk: bool)
    ensures var a := SetPayoutLevel(q, parseFloat, rawMin, members, writeOk);
      var checks := PayoutChecks(q, parseFloat, rawMin, members);
      && a.status == FirstFailure(checks + [(writeOk, WriteFailed)]).GetOr(Done)
      && (a.effect != NoEffect <==> FirstFailure(checks).None?)
  {
    var c := PayoutChecks(q, parseFloat, rawMin, members);
    var w := c + [(writeOk, WriteFailed)];
    if !c[0].0 { FirstFailureAt(c, 0); FirstFailureAt(w, 0); }
    else if !c[1].0 { FirstFailureAt(c, 1); FirstFailureAt(w, 1); }
    else if !c[2].0 { FirstFailureAt(c, 2); FirstFailureAt(w, 2); }
    else if !c[3].0 { FirstFailureAt(c, 3); FirstFailureAt(w, 3); }
    else if !c[4].0 { FirstFailureAt(c, 4); FirstFailureAt(w, 4); }
    else if !writeOk { FirstFailureAt(w, 5); }
  }

  /** `action` is exactly "enable" or "disable". */
  predicate ValidAction(action: Option<string>)
  {
    action == Some("enable") || action == Some("disable")
  }

  datatype EmailQuery = EmailQuery(email: Option<string>, address: Option<string>, ip: Option<string>, action: Option<string>)

  predicate EmailComplete(q: EmailQuery)
  {
    q.ip.Some? && q.address.Some? && q.action.Some?
  }

  /** The checks every email request must pass before its action is looked at. */
  predicate EmailAdmitted(q: EmailQuery, members: Option<set<string>>)
  {
    EmailComplete(q) && NoWildcard(q.address.value, q.ip.value) && ValidAction(q.action)
    && SeenWithIp(members, q.ip.value)
  }

  /**
   * `handleSetMinerNotifications` (lines 856-926): the first failing check
   * answers; an admitted "enable" needs an email. The reply "done" is sent
   * without waiting for the write, so it never reports a write failure.
   */
  function SetEmailNotifications(q: EmailQuery, members: Option<set<string>>): (a: Answer)
    ensures a.status == ParametersIncomplete <==> !EmailComplete(q)
    ensures a.status == WildcardInInput <==> EmailComplete(q) && !NoWildcard(q.address.value, q.ip.value)
    ensures a.status == InvalidAction <==>
      EmailComplete(q) && NoWildcard(q.address.value, q.ip.value) && !ValidAction(q.action)
    ensures a.status == IpNotSeen <==>
      EmailComplete(q) && NoWildcard(q.address.value, q.ip.value) && ValidAction(q.action)
      && !SeenWithIp(members, q.ip.value)
    ensures a.status == NoEmail <==> EmailAdmitted(q, members) && q.action == Some("enable") && q.email.None?
    ensures a.status == Done <==> a.effect != NoEffect
    ensures a.effect.SetEmail? <==> EmailAdmitted(q, members) && q.action == Some("enable") && q.email.Some?
    ensures a.effect.SetEmail? ==> a.effect == SetEmail(q.address.value, q.email.value)
    ensures a.effect.ClearEmail? <==> EmailAdmitted(q, members) && q.action == Some("disable")
    ensures a.effect.ClearEmail? ==> a.effect == ClearEmail(q.address.value)
  {
    if !EmailComplete(q) then Answer(ParametersIncomplete, NoEffect)
    else
      var address, ip := q.address.value, q.ip.value;
      if !NoWildcard(address, ip) then Answer(WildcardInInput, NoEffect)
      else if !ValidAction(q.action) then Answer(InvalidAction, NoEffect)
      else if !SeenWithIp(members, ip) then Answer(IpNotSeen, NoEffect)
      else if q.action == Some("enable") then
        if q.email.None? then Answer(NoEmail, NoEffect)
        else Answer(Done, SetEmail(address, q.email.value))
      else Answer(Done, ClearEmail(address))
  }

  /** The checks of lines 867-894, in order; each is read as if the earlier ones passed. */
  function EmailChecks(q: EmailQuery, members: Option<set<string>>): seq<(bool, Status)>
  {
    var complete := EmailComplete(q);
    [ (complete, ParametersIncomplete),
      (!complete || NoWildcard(q.address.value, q.ip.value), WildcardInInput),
      (ValidAction(q.action), InvalidAction),
      (!complete || SeenWithIp(members, q.ip.value), IpNotSeen),
      (q.action != Some("enable") || q.email.Some?, NoEmail) ]
  }

  /** The email endpoint answers with its first failing check, and otherwise writes and answers "done". */
  lemma EmailIsCascade(q: EmailQuery, members: Option<set<string>>)
    ensures var a := SetEmailNotifications(q, members);
      && a.status == FirstFailure(EmailChecks(q, members)).GetOr(Done)
      && (a.effect != NoEffect <==> FirstFailure(EmailChecks(q, members)).None?)
  {
    var c := EmailChecks(q, members);
    if !c[0].0 { FirstFailureAt(c, 0); }
    else if !c[1].0 { FirstFailureAt(c, 1); }
    else if !c[2].0 { FirstFailureAt(c, 2); }
    else if !c[3].0 { FirstFailureAt(c, 3); }
    else if !c[4].0 { FirstFailureAt(c, 4); }
  }

  datatype ChatQuery = ChatQuery(chatId: Option<string>, address: Option<string>, action: Option<string>)

  /**
   * `handleTelegramNotifications` (lines 931-990): chat id, address and action
   * are checked in that order (an empty value counts as missing), then the
   * miner must exist; the write is not awaited.
   */
  function SetTelegramNotifications(q: ChatQuery, minerExists: bool): (a: Answer)
    ensures a.status == NoChatId <==> !TruthyText(q.chatId)
    ensures a.status == NoAddress <==> TruthyText(q.chatId) && !TruthyText(q.address)
    ensures a.status == InvalidAction <==> TruthyText(q.chatId) && TruthyText(q.address) && !ValidAction(q.action)
    ensures a.status == MinerNotFound <==>
      TruthyText(q.chatId) && TruthyText(q.address) && ValidAction(q.action) && !minerExists
    ensures a.status == Done <==> a.effect != NoEffect
    ensures a.effect != NoEffect <==>
      TruthyText(q.chatId) && TruthyText(q.address) && ValidAction(q.action) && minerExists
    ensures a.effect != NoEffect ==>
      a.effect == if q.action == Some("enable") then SetChat(q.address.value, q.chatId.value)
                  else ClearChat(q.address.value)
  {
    if !TruthyText(q.chatId) then Answer(NoChatId, NoEffect)
    else if !TruthyText(q.address) then Answer(NoAddress, NoEffect)
    else if !ValidAction(q.action) then Answer(InvalidAction, NoEffect)
    else if !minerExists then Answer(MinerNotFound, NoEffect)
    else if q.action == Some("enable") then Answer(Done, SetChat(q.address.value, q.chatId.value))
    else Answer(Done, ClearChat(q.address.value))
  }

  /** The checks of lines 942-964, in order. */
  function ChatChecks(q: ChatQuery, minerExists: bool): seq<(bool, Status)>
  {
    [ (TruthyText(q.chatId), NoChatId),
      (TruthyText(q.address), NoAddress),
      (ValidAction(q.action), InvalidAction),
      (minerExists, MinerNotFound) ]
  }

  /** The Telegram endpoint answers with its first failing check, and otherwise writes and answers "done". */
  lemma TelegramIsCascade(q: ChatQuery, minerExists: bool)
    ensures var a := SetTelegramNotifications(q, minerExists);
      && a.status == FirstFailure(ChatChecks(q, minerExists)).GetOr(Done)
      && (a.effect != NoEffect <==> FirstFailure(ChatChecks(q, minerExists)).None?)
  {
    var c := ChatChecks(q, minerExists);
    if !c[0].0 { FirstFailureAt(c, 0); }
    else if !c[1].0 { FirstFailureAt(c, 1); }
    else if !c[2].0 { FirstFailureAt(c, 2); }
    else if !c[3].0 { FirstFailureAt(c, 3); }
  }
}
