/** The peer-discovery thread and the admin processor of
    backends/irc/__init__.py: how the advertised identity is derived from the
    configuration, the advertisement string, the handling of one line read from
    the IRC channel (PING, the NAMES reply 353, the WHO reply 352 of section 6.2
    of RFC 1459, and the five-minute publication of the peer table), and the
    `server.*` methods.

    Sockets, the reconnect loop, DNS (`socket.gethostbyname`), the hash
    (`utils.Hash`) and the clock are not modelled: the lines the thread would
    send are returned, and resolution, hashing and the current time are
    parameters. */
module Irc {
  import opened Messages
  import opened Text
  import opened Dispatch

  /** The `[server]` section of the configuration, as far as this file reads it. */
  datatype Config = Config(
    tcpPort: string,
    httpPort: string,
    tcpSslPort: string,
    httpSslPort: string,
    reportTcpPort: string,
    reportHttpPort: string,
    reportTcpSslPort: string,
    reportHttpSslPort: string,
    host: string,
    reportHost: string,
    ircNick: string,
    coin: string,
    backend: string,
    banner: string,
    password: string,
    irc: string)

  /** A peer table entry `(ip, host, ports)`. */
  datatype Peer = Peer(ip: string, host: string, ports: seq<string>)

  const PublishInterval: int := 5 * 60
  const Channel: string := "#electrum"
  const PeersMethod: string := "server.peers"
  const StopMessage: string := "stopping, please wait until all threads terminate."

  /** A configured value, replaced by its `report_` counterpart when that is set. */
  function Override(local: string, report: string): string
  {
    if report != "" then report else local
  }

  /** The tokens of the advertisement: the version, `p` for a pruning backend,
      then one token per port class. The SSL tokens are guarded by the plain
      ports, as electrum-server's getname does. */
  function AdvertTokens(version: string, pruning: bool, tcp: string, http: string,
                        tcpSsl: string, httpSsl: string): seq<string>
  {
    ["v" + version]
    + (if pruning then ["p"] else [])
    + (if tcp != "" then ["t" + tcp] else [])
    + (if http != "" then ["h" + http] else [])
    + (if tcp != "" then ["s" + tcpSsl] else [])
    + (if http != "" then ["g" + httpSsl] else [])
  }

  /** Every token followed by one space. */
  function Terminated(tokens: seq<string>): string
  {
    if tokens == [] then "" else tokens[0] + " " + Terminated(tokens[1..])
  }

  lemma {:induction false} TerminatedAppend(a: seq<string>, b: seq<string>)
    ensures Terminated(a + b) == Terminated(a) + Terminated(b)
    decreases |a|
  {
    if a != [] {
      TerminatedAppend(a[1..], b);
      assert (a + b)[1..] == a[1..] + b;
    } else {
      assert a + b == b;
    }
  }

  /** Appending one token and a space to the advertisement built so far. */
  lemma Extend(tokens: seq<string>, s: string, token: string)
    ensures s == Terminated(tokens) ==> s + (token + " ") == Terminated(tokens + [token])
  {
    TerminatedAppend(tokens, [token]);
    assert Terminated([token]) == token + " " + Terminated([]);
  }

  /** A space-terminated token list is the space-join of the tokens and a final empty word. */
  lemma {:induction false} TerminatedIsJoin(tokens: seq<string>)
    ensures Terminated(tokens) == Join(tokens + [""], ' ')
    decreases |tokens|
  {
    if tokens != [] {
      TerminatedIsJoin(tokens[1..]);
      assert (tokens + [""])[1..] == tokens[1..] + [""];
    }
  }

  /** What a reader of the advertisement learns from it. */
  datatype Advert = Advert(
    version: Option<string>,
    pruning: bool,
    tcp: Option<string>,
    http: Option<string>,
    tcpSsl: Option<string>,
    httpSsl: Option<string>)

  const NoAdvert := Advert(None, false, None, None, None, None)

  /** Reads one token into what is known so far. */
  function ReadToken(token: string, a: Advert): Advert
  {
    if token == "" then a
    else if token[0] == 'v' then a.(version := Some(token[1..]))
    else if token == "p" then a.(pruning := true)
    else if token[0] == 't' then a.(tcp := Some(token[1..]))
    else if token[0] == 'h' then a.(http := Some(token[1..]))
    else if token[0] == 's' then a.(tcpSsl := Some(token[1..]))
    else if token[0] == 'g' then a.(httpSsl := Some(token[1..]))
    else a
  }

  function ReadTokens(tokens: seq<string>): Advert
  {
    if tokens == [] then NoAdvert else ReadToken(tokens[0], ReadTokens(tokens[1..]))
  }

  /** A peer's reading of an advertisement: split on spaces, one token at a time. */
  function ReadAdvert(s: string): Advert
  {
    ReadTokens(Split(s, ' '))
  }

  function NonEmpty(s: string): Option<string>
  {
    if s == "" then None else Some(s)
  }

  /** Reading an optional token in front of the rest. */
  lemma ReadOptional(x: seq<string>, rest: seq<string>)
    requires |x| <= 1
    ensures ReadTokens(x + rest) == if x == [] then ReadTokens(rest) else ReadToken(x[0], ReadTokens(rest))
  {
    if x == [] {
      assert x + rest == rest;
    } else {
      assert (x + rest)[1..] == rest;
    }
  }

  /** The letter and the value of a token. */
  lemma TokenParts(letter: char, value: string)
    ensures ([letter] + value)[0] == letter && ([letter] + value)[1..] == value
  {
  }

  /** A trailing empty word adds nothing to what is read. */
  lemma {:induction false} ReadTrailingEmpty(tokens: seq<string>)
    ensures ReadTokens(tokens + [""]) == ReadTokens(tokens)
    decreases |tokens|
  {
    if tokens == [] {
      assert [] + [""] == [""];
      assert [""][1..] == [];
    } else {
      ReadTrailingEmpty(tokens[1..]);
      assert (tokens + [""])[1..] == tokens[1..] + [""];
    }
  }

  /** Reading space-terminated, space-free tokens reads the tokens. */
  lemma ReadTerminated(tokens: seq<string>)
    requires forall i :: 0 <= i < |tokens| ==> ' ' !in tokens[i]
    ensures ReadAdvert(Terminated(tokens)) == ReadTokens(tokens)
  {
    var words := tokens + [""];
    forall i | 0 <= i < |words|
      ensures ' ' !in words[i]
    {
      if i < |tokens| {
        assert words[i] == tokens[i];
      }
    }
    TerminatedIsJoin(tokens);
    SplitJoin(words, ' ');
    ReadTrailingEmpty(tokens);
  }

  function ExpectedAdvert(version: string, pruning: bool, tcp: string, http: string,
                          tcpSsl: string, httpSsl: string): Advert
  {
    Advert(Some(version), pruning, NonEmpty(tcp), NonEmpty(http),
           if tcp != "" then Some(tcpSsl) else None,
           if http != "" then Some(httpSsl) else None)
  }

  /** Reading the tokens one by one, from the last. */
  lemma ReadAdvertTokens(version: string, pruning: bool, tcp: string, http: string,
                         tcpSsl: string, httpSsl: string)
    ensures ReadTokens(AdvertTokens(version, pruning, tcp, http, tcpSsl, httpSsl))
         == ExpectedAdvert(version, pruning, tcp, http, tcpSsl, httpSsl)
  {
    var v := ["v" + version];
    var p := if pruning then ["p"] else [];
    var t := if tcp != "" then ["t" + tcp] else [];
    var h := if http != "" then ["h" + http] else [];
    var s := if tcp != "" then ["s" + tcpSsl] else [];
    var g := if http != "" then ["g" + httpSsl] else [];
    assert AdvertTokens(version, pruning, tcp, http, tcpSsl, httpSsl) == v + (p + (t + (h + (s + g))));
    TokenParts('v', version);
    TokenParts('t', tcp);
    TokenParts('h', http);
    TokenParts('s', tcpSsl);
    TokenParts('g', httpSsl);
    ReadOptional(g, []);
    assert g + [] == g;
    ReadOptional(s, g);
    ReadOptional(h, s + g);
    ReadOptional(t, h + (s + g));
    ReadOptional(p, t + (h + (s + g)));
    ReadOptional(v, p + (t + (h + (s + g))));
  }

  /** A peer reading the advertisement recovers the version, the pruning flag
      and every advertised port, provided none of them holds a space; the SSL
      ports are only recovered when the matching plain port is set. */
  lemma AdvertRoundTrip(version: string, pruning: bool, tcp: string, http: string,
                        tcpSsl: string, httpSsl: string)
    requires ' ' !in version && ' ' !in tcp && ' ' !in http && ' ' !in tcpSsl && ' ' !in httpSsl
    ensures ReadAdvert(Terminated(AdvertTokens(version, pruning, tcp, http, tcpSsl, httpSsl)))
         == ExpectedAdvert(version, pruning, tcp, http, tcpSsl, httpSsl)
  {
    var tokens := AdvertTokens(version, pruning, tcp, http, tcpSsl, httpSsl);
    forall i | 0 <= i < |tokens|
      ensures ' ' !in tokens[i]
    {
    }
    ReadTerminated(tokens);
    ReadAdvertTokens(version, pruning, tcp, http, tcpSsl, httpSsl);
  }

  /** The index of the first occurrence of `x`, as `list.index` gives it. */
  function IndexOf(s: seq<string>, x: string): (k: nat)
    requires x in s
    ensures k < |s| && s[k] == x
    ensures forall j :: 0 <= j < k ==> s[j] != x
  {
    if s[0] == x then 0 else 1 + IndexOf(s[1..], x)
  }

  /** The `WHO` query sent for one member of a NAMES reply. */
  function Who(member: string): string
  {
    "WHO " + member + "\n"
  }

  /** One `WHO` query, in order, per member whose name starts with `prefix`. */
  function WhoQueries(members: seq<string>, prefix: string): seq<string>
    decreases |members|
  {
    if members == [] then []
    else
      var last := members[|members| - 1];
      WhoQueries(members[..|members| - 1], prefix)
      + (if StartsWith(last, prefix) then [Who(last)] else [])
  }

  /** The queries are exactly those for the members carrying the prefix. */
  lemma {:induction false} WhoQueriesExact(members: seq<string>, prefix: string, q: string)
    ensures q in WhoQueries(members, prefix) <==>
      exists m :: m in members && StartsWith(m, prefix) && q == Who(m)
    decreases |members|
  {
    if members != [] {
      var init := members[..|members| - 1];
      var last := members[|members| - 1];
      WhoQueriesExact(init, prefix, q);
      assert members == init + [last];
      if exists m :: m in members && StartsWith(m, prefix) && q == Who(m) {
        var m :| m in members && StartsWith(m, prefix) && q == Who(m);
        if m != last {
          assert m in init;
        }
      }
    }
  }

  /** A line that `run` handles without an IndexError. */
  predicate LineHandled(line: seq<string>)
  {
    line == []
    || ((line[0] == "PING" ==> |line| >= 2)
        && (line[0] != "PING" && "353" !in line && "352" in line ==> IndexOf(line, "352") + 9 < |line|))
  }

  /** The lines sent in answer to a non-empty line, before the publication check. */
  function Reply(line: seq<string>, prefix: string): seq<string>
    requires line != [] && LineHandled(line)
  {
    if line[0] == "PING" then ["PONG " + line[1] + "\n"]
    else if "353" in line then WhoQueries(line[IndexOf(line, "353") + 1..], prefix)
    else []
  }

  /** A WHO reply: neither a PING nor a NAMES reply, and holding `352`. */
  predicate IsWhoReply(line: seq<string>)
  {
    line != [] && line[0] != "PING" && "353" !in line && "352" in line
  }

  /** The peer table after a non-empty line: a WHO reply upserts its member. */
  function Heard(line: seq<string>, peers: map<string, Peer>, resolve: string -> string): map<string, Peer>
    requires line != [] && LineHandled(line)
  {
    if IsWhoReply(line) then
      var k := IndexOf(line, "352");
      peers[line[k + 6] := Peer(resolve(line[k + 4]), line[k + 9], line[k + 10..])]
    else peers
  }

  /** A WHO reply changes only the entry of the member it names. */
  lemma HeardOnlyNamed(line: seq<string>, peers: map<string, Peer>, resolve: string -> string, name: string)
    requires line != [] && LineHandled(line)
    requires name in peers
    requires !(IsWhoReply(line) && line[IndexOf(line, "352") + 6] == name)
    ensures name in Heard(line, peers, resolve) && Heard(line, peers, resolve)[name] == peers[name]
  {
  }

  /** The peers known after a line: a WHO reply adds (or overwrites) exactly the
      member it names and removes none; any other line leaves the table as it is. */
  lemma HeardKeys(line: seq<string>, peers: map<string, Peer>, resolve: string -> string)
    requires line != [] && LineHandled(line)
    ensures IsWhoReply(line) ==>
      Heard(line, peers, resolve).Keys == peers.Keys + {line[IndexOf(line, "352") + 6]}
    ensures !IsWhoReply(line) ==> Heard(line, peers, resolve) == peers
  {
  }

  function PortsJson(ports: seq<string>): (js: seq<Json>)
    ensures |js| == |ports|
    ensures forall i :: 0 <= i < |ports| ==> js[i] == JStr(ports[i])
  {
    seq(|ports|, i requires 0 <= i < |ports| => JStr(ports[i]))
  }

  /** A peer as the JSON list `[ip, host, ports]`. */
  function PeerJson(p: Peer): Json
  {
    JList([JStr(p.ip), JStr(p.host), JList(PortsJson(p.ports))])
  }

  function PeersJson(vals: seq<Peer>): (js: seq<Json>)
    ensures |js| == |vals|
    ensures forall i :: 0 <= i < |vals| ==> js[i] == PeerJson(vals[i])
  {
    seq(|vals|, i requires 0 <= i < |vals| => PeerJson(vals[i]))
  }

  /** `keys` lists every key of `m` once, in some order. */
  ghost predicate Enumerates(keys: seq<string>, m: map<string, Peer>)
  {
    && (forall i :: 0 <= i < |keys| ==> keys[i] in m)
    && (forall k :: k in m ==> k in keys)
    && (forall i, j :: 0 <= i < j < |keys| ==> keys[i] != keys[j])
  }

  function ValuesAt(keys: seq<string>, m: map<string, Peer>): (vals: seq<Peer>)
    requires forall i :: 0 <= i < |keys| ==> keys[i] in m
    ensures |vals| == |keys|
    ensures forall i :: 0 <= i < |keys| ==> vals[i] == m[keys[i]]
  {
    seq(|keys|, i requires 0 <= i < |keys| => m[keys[i]])
  }

  /** `vals` is `m.values()`: every entry once, in the dictionary's (unspecified) order. */
  ghost predicate IsListing(vals: seq<Peer>, m: map<string, Peer>)
  {
    exists keys :: Enumerates(keys, m) && vals == ValuesAt(keys, m)
  }

  lemma {:induction false} DistinctCard(keys: seq<string>)
    requires forall i, j :: 0 <= i < j < |keys| ==> keys[i] != keys[j]
    ensures |set k | k in keys| == |keys|
    decreases |keys|
  {
    if keys != [] {
      var init := keys[..|keys| - 1];
      var last := keys[|keys| - 1];
      DistinctCard(init);
      assert (set k | k in keys) == (set k | k in init) + {last};
      assert last !in (set k | k in init);
    }
  }

  lemma EnumeratedKeys(keys: seq<string>, m: map<string, Peer>)
    requires Enumerates(keys, m)
    ensures (set x | x in keys) == m.Keys
  {
    forall x | x in keys
      ensures x in m
    {
      var i :| 0 <= i < |keys| && keys[i] == x;
    }
  }

  /** A listing of the peer table has one element per peer. */
  lemma ListingSize(vals: seq<Peer>, m: map<string, Peer>)
    requires IsListing(vals, m)
    ensures |vals| == |m|
  {
    var keys :| Enumerates(keys, m) && vals == ValuesAt(keys, m);
    DistinctCard(keys);
    EnumeratedKeys(keys, m);
  }

  /** The notification that republishes the peer table. */
  function PeersNotice(vals: seq<Peer>): Response
  {
    Response(JNull, Some(PeersMethod), Some([JList(PeersJson(vals))]), None, None)
  }

  ghost predicate IsPeersNotice(r: Response, m: map<string, Peer>)
  {
    exists vals :: IsListing(vals, m) && r == PeersNotice(vals)
  }

  class IrcThread {
    var tcpPort: string
    var httpPort: string
    var tcpSslPort: string
    var httpSslPort: string
    var host: string
    var reportHost: string
    var nick: string
    /** The nickname prefix every server of this coin uses. */
    var prepend: string
    var pruning: bool
    /** The peer table, keyed by nickname. */
    var peers: map<string, Peer>
    /** The time of the last publication (`t` in `run`). */
    var lastPublish: int
    /** The server's `VERSION`. */
    const serverVersion: string

    /** The advertised identity resolved from the configuration: each non-empty
        `report_` value overrides the local one, the nickname prefix depends on
        the coin, and a missing nickname is derived from the hash of the
        reported host. */
    ghost predicate ConfiguredFrom(config: Config, hash: string -> string, serverVersion: string)
      reads this
    {
      && tcpPort == Override(config.tcpPort, config.reportTcpPort)
      && httpPort == Override(config.httpPort, config.reportHttpPort)
      && tcpSslPort == Override(config.tcpSslPort, config.reportTcpSslPort)
      && httpSslPort == Override(config.httpSslPort, config.reportHttpSslPort)
      && host == Override(config.host, config.reportHost) && reportHost == config.reportHost
      && prepend == (if config.coin == "litecoin" then "EL_" else "E_")
      && (pruning <==> config.backend == "leveldb")
      && nick == prepend + (if config.ircNick != "" then config.ircNick else Take(hash(config.reportHost), 10))
      && this.serverVersion == serverVersion
    }

    /** Resolves ports, host and nickname from the configuration; `hash` is `utils.Hash`. */
    constructor(config: Config, hash: string -> string, serverVersion: string)
      ensures ConfiguredFrom(config, hash, serverVersion)
      ensures StartsWith(nick, prepend)
      ensures peers == map[] && lastPublish == 0
    {
      this.serverVersion := serverVersion;
      var tcp, http, tcpSsl, httpSsl := config.tcpPort, config.httpPort, config.tcpSslPort, config.httpSslPort;
      peers := map[];
      var host, reportHost, nick := config.host, config.reportHost, config.ircNick;
      if config.reportTcpPort != "" {
        tcp := config.reportTcpPort;
      }
      if config.reportHttpPort != "" {
        http := config.reportHttpPort;
      }
      if config.reportTcpSslPort != "" {
        tcpSsl := config.reportTcpSslPort;
      }
      if config.reportHttpSslPort != "" {
        httpSsl := config.reportHttpSslPort;
      }
      if reportHost != "" {
        host := reportHost;
      }
      if nick == "" {
        nick := Take(hash(reportHost), 10);
      }
      var prepend := "E_";
      if config.coin == "litecoin" {
        prepend := "EL_";
      }
      pruning := config.backend == "leveldb";
      this.nick := prepend + nick;
      this.prepend := prepend;
      this.host, this.reportHost := host, reportHost;
      tcpPort, httpPort, tcpSslPort, httpSslPort := tcp, http, tcpSsl, httpSsl;
      lastPublish := 0;
    }

    /** The peer table's values, in the dictionary's order. */
    method GetPeers() returns (vals: seq<Peer>)
      ensures IsListing(vals, peers)
    {
      var rest := peers.Keys;
      ghost var keys: seq<string> := [];
      vals := [];
      while rest != {}
        invariant rest <= peers.Keys
        invariant forall i :: 0 <= i < |keys| ==> keys[i] in peers && keys[i] !in rest
        invariant forall k :: k in peers ==> k in keys || k in rest
        invariant forall i, j :: 0 <= i < j < |keys| ==> keys[i] != keys[j]
        invariant vals == ValuesAt(keys, peers)
        decreases rest
      {
        var k :| k in rest;
        vals := vals + [peers[k]];
        keys := keys + [k];
        rest := rest - {k};
      }
      assert Enumerates(keys, peers);
    }

    /** The advertisement sent in the USER line. */
    method GetName() returns (s: string)
      ensures s == Terminated(AdvertTokens(serverVersion, pruning, tcpPort, httpPort, tcpSslPort, httpSslPort))
    {
      ghost var tokens: seq<string> := [];
      s := "";
      Extend(tokens, s, "v" + serverVersion);
      tokens := tokens + ["v" + serverVersion];
      s := s + ("v" + serverVersion + " ");
      if pruning {
        Extend(tokens, s, "p");
        tokens := tokens + ["p"];
        s := s + "p ";
      }
      if tcpPort != "" {
        Extend(tokens, s, "t" + tcpPort);
        tokens := tokens + ["t" + tcpPort];
        s := s + ("t" + tcpPort + " ");
      }
      if httpPort != "" {
        Extend(tokens, s, "h" + httpPort);
        tokens := tokens + ["h" + httpPort];
        s := s + ("h" + httpPort + " ");
      }
      if tcpPort != "" {
        Extend(tokens, s, "s" + tcpSslPort);
        tokens := tokens + ["s" + tcpSslPort];
        s := s + ("s" + tcpSslPort + " ");
      }
      if httpPort != "" {
        Extend(tokens, s, "g" + httpSslPort);
        tokens := tokens + ["g" + httpSslPort];
        s := s + ("g" + httpSslPort + " ");
      }
      assert tokens == AdvertTokens(serverVersion, pruning, tcpPort, httpPort, tcpSslPort, httpSslPort);
    }

    /** The three lines sent once connected; the publication clock starts at 0,
        so the first line read publishes. */
    method Handshake() returns (sent: seq<string>)
      modifies this`lastPublish
      ensures lastPublish == 0
      ensures sent == [
        "USER electrum 0 * :" + host + " "
          + Terminated(AdvertTokens(serverVersion, pruning, tcpPort, httpPort, tcpSslPort, httpSslPort)) + "\n",
        "NICK " + nick + "\n",
        "JOIN " + Channel + "\n"]
    {
      var ircname := GetName();
      sent := ["USER electrum 0 * :" + host + " " + ircname + "\n"];
      sent := sent + ["NICK " + nick + "\n"];
      sent := sent + ["JOIN " + Channel + "\n"];
      lastPublish := 0;
    }

    /** The `WHO` queries for the members of a NAMES reply that carry this
        coin's prefix. */
    method QueryMembers(members: seq<string>) returns (sent: seq<string>)
      ensures sent == WhoQueries(members, prepend)
    {
      sent := [];
      for i := 0 to |members|
        invariant sent == WhoQueries(members[..i], prepend)
      {
        assert members[..i + 1][..i] == members[..i];
        if StartsWith(members[i], prepend) {
          sent := sent + [Who(members[i])];
        }
      }
      assert members[..|members|] == members;
    }

    /** Answers a PING, a NAMES reply or a WHO reply. */
    method Answer(line: seq<string>, resolve: string -> string) returns (ok: bool, sent: seq<string>)
      requires line != []
      modifies this`peers
      ensures ok == LineHandled(line)
      ensures !ok ==> sent == [] && peers == old(peers)
      ensures ok ==> sent == Reply(line, prepend) && peers == Heard(line, old(peers), resolve)
    {
      sent := [];
      if line[0] == "PING" {
        if |line| < 2 {
          return false, sent;
        }
        sent := ["PONG " + line[1] + "\n"];
      } else if "353" in line {
        var k := IndexOf(line, "353");
        sent := QueryMembers(line[k + 1..]);
      } else if "352" in line {
        var k := IndexOf(line, "352");
        if |line| <= k + 9 {
          return false, sent;
        }
        var ip := resolve(line[k + 4]);
        var name := line[k + 6];
        var host := line[k + 9];
        var ports := line[k + 10..];
        peers := peers[name := Peer(ip, host, ports)];
      }
      ok := true;
    }

    /** Republishes the peer table when more than five minutes have passed,
        then asks the channel for its members again and empties the table. */
    method Publish(now: int) returns (sent: seq<string>, pushed: seq<Response>)
      modifies this`peers, this`lastPublish
      ensures now - old(lastPublish) <= PublishInterval ==>
        sent == [] && pushed == [] && peers == old(peers) && lastPublish == old(lastPublish)
      ensures now - old(lastPublish) > PublishInterval ==>
        sent == ["NAMES " + Channel + "\n"]
        && |pushed| == 1 && IsPeersNotice(pushed[0], old(peers))
        && peers == map[] && lastPublish == now
    {
      sent, pushed := [], [];
      if now - lastPublish > PublishInterval {
        var vals := GetPeers();
        pushed := [PeersNotice(vals)];
        sent := ["NAMES " + Channel + "\n"];
        lastPublish := now;
        peers := map[];
      }
    }

    /** Handles one line read from the channel, split into tokens, at time
        `now`; `resolve` is `socket.gethostbyname`. `ok` is false when the line
        raised an IndexError, which ends the connection. */
    method HandleLine(line: seq<string>, now: int, resolve: string -> string)
      returns (ok: bool, sent: seq<string>, pushed: seq<Response>)
      modifies this`peers, this`lastPublish
      ensures ok == LineHandled(line)
      ensures !ok || line == [] ==>
        sent == [] && pushed == [] && peers == old(peers) && lastPublish == old(lastPublish)
      ensures ok && line != [] && now - old(lastPublish) <= PublishInterval ==>
        sent == Reply(line, prepend) && pushed == []
        && peers == Heard(line, old(peers), resolve) && lastPublish == old(lastPublish)
      ensures ok && line != [] && now - old(lastPublish) > PublishInterval ==>
        sent == Reply(line, prepend) + ["NAMES " + Channel + "\n"]
        && |pushed| == 1 && IsPeersNotice(pushed[0], Heard(line, old(peers), resolve))
        && peers == map[] && lastPublish == now
    {
      if line == [] {
        return true, [], [];
      }
      var answered;
      ok, answered := Answer(line, resolve);
      if !ok {
        return false, [], [];
      }
      var published;
      published, pushed := Publish(now);
      sent := answered + published;
    }
  }

  /** The processor of the `server` prefix. */
  class ServerProcessor {
    const banner: string
    const password: string
    const serverVersion: string
    const irc: IrcThread?
    const shared: Shared
    const requests: RequestDispatcher
    /** The request queue every processor has; the dispatcher registers it. */
    const inbox: Processor

    /** The processor and the shared state read the same configuration, so the
        admin password here is the one the response dispatcher puts in front of
        an unsubscribe request. */
    constructor(config: Config, hash: string -> string, serverVersion: string,
                shared: Shared, requests: RequestDispatcher)
      requires shared.password == config.password
      ensures banner == config.banner && password == config.password && password == shared.password
      ensures this.serverVersion == serverVersion && this.shared == shared && this.requests == requests
      ensures (irc != null) <==> config.irc == "yes"
      ensures irc != null ==>
        fresh(irc) && irc.ConfiguredFrom(config, hash, serverVersion)
        && irc.peers == map[] && irc.lastPublish == 0
      ensures fresh(inbox) && inbox.queue == []
    {
      banner := config.banner;
      password := config.password;
      this.serverVersion := serverVersion;
      this.shared := shared;
      this.requests := requests;
      inbox := new Processor();
      if config.irc == "yes" {
        irc := new IrcThread(config, hash, serverVersion);
      } else {
        irc := null;
      }
    }

    /** `vals` is what `get_peers` returns: nothing when IRC is off. */
    ghost predicate ListsPeers(vals: seq<Peer>)
      reads this, irc
    {
      if irc == null then vals == [] else IsListing(vals, irc.peers)
    }

    method GetPeers() returns (vals: seq<Peer>)
      ensures irc == null ==> vals == []
      ensures irc != null ==> IsListing(vals, irc.peers)
    {
      if irc != null {
        vals := irc.GetPeers();
      } else {
        vals := [];
      }
    }

    /** The methods that need the password as first parameter. */
    predicate Gated(methodName: string)
    {
      methodName == "server.stop" || methodName == "server.info"
    }

    /** The first parameter, decoded from JSON as `unicode`, equals the
        configured password, a byte `str` read from the configuration file. */
    predicate Authorized(params: seq<Json>)
    {
      params != [] && params[0].JStr? && StrEqualsUnicode(password, params[0].s)
    }

    /** The responses pushed after computing `result`: none for the empty
        string, otherwise `{id, result}`, which raises KeyError without an id. */
    ghost predicate Replied(q0: seq<Response>, q: seq<Response>, request: Request, result: Json, outcome: Outcome)
    {
      if result == JStr("") then q == q0 && outcome == Completed
      else if request.id.None? then q == q0 && outcome == Raised("KeyError")
      else q == q0 + [Response(request.id.value, None, None, Some(result), None)] && outcome == Completed
    }

    /** Handles one request of the `server` prefix. */
    method Process(request: Request) returns (outcome: Outcome)
      modifies requests`responseQueue, shared`stopped
      ensures request.params.None? ==>
        outcome == Raised("KeyError")
        && requests.responseQueue == old(requests.responseQueue) && shared.stopped == old(shared.stopped)
      ensures request.params.Some? && Gated(request.methodName) && !Authorized(request.params.value) ==>
        shared.stopped == old(shared.stopped)
        && (request.id.None? ==>
              outcome == Raised("KeyError") && requests.responseQueue == old(requests.responseQueue))
        && (request.id.Some? ==>
              outcome == Completed
              && requests.responseQueue == old(requests.responseQueue)
                   + [Response(request.id.value, None, None, Some(JNull), Some(JStr("incorrect password")))])
      ensures request.params.Some? && (Gated(request.methodName) ==> Authorized(request.params.value)) ==>
        var m := request.methodName;
        (m == "server.banner" ==>
          shared.stopped == old(shared.stopped)
          && Replied(old(requests.responseQueue), requests.responseQueue, request, JStr(Unescape(banner)), outcome))
        && (m == "server.peers.subscribe" ==>
          shared.stopped == old(shared.stopped)
          && exists vals :: ListsPeers(vals)
               && Replied(old(requests.responseQueue), requests.responseQueue, request, JList(PeersJson(vals)), outcome))
        && (m == "server.version" ==>
          shared.stopped == old(shared.stopped)
          && Replied(old(requests.responseQueue), requests.responseQueue, request, JStr(serverVersion), outcome))
        && (m == "server.stop" ==>
          shared.stopped
          && Replied(old(requests.responseQueue), requests.responseQueue, request, JStr(StopMessage), outcome))
        && (m == "server.info" || m == "server.cache" || m == "server.load" ==>
          outcome == Unmodelled
          && shared.stopped == old(shared.stopped) && requests.responseQueue == old(requests.responseQueue))
        && (m !in {"server.banner", "server.peers.subscribe", "server.version", "server.stop",
                   "server.info", "server.cache", "server.load"} ==>
          shared.stopped == old(shared.stopped)
          && Replied(old(requests.responseQueue), requests.responseQueue, request, JNull, outcome))
    {
      if request.params.None? {
        return Raised("KeyError");
      }
      var methodName := request.methodName;
      var params := request.params.value;
      var result: Json := JNull;
      if methodName == "server.stop" || methodName == "server.info" {
        var given: Json := if params != [] then params[0] else JNull;
        if !(given.JStr? && StrEqualsUnicode(password, given.s)) {
          if request.id.None? {
            return Raised("KeyError");
          }
          requests.PushResponse(Response(request.id.value, None, None, Some(JNull), Some(JStr("incorrect password"))));
          return Completed;
        }
      }
      if methodName == "server.banner" {
        result := JStr(Unescape(banner));
      } else if methodName == "server.peers.subscribe" {
        var vals := GetPeers();
        result := JList(PeersJson(vals));
        assert ListsPeers(vals);
      } else if methodName == "server.version" {
        result := JStr(serverVersion);
      } else if methodName == "server.stop" {
        shared.Stop();
        result := JStr(StopMessage);
      } else if methodName == "server.info" || methodName == "server.cache" || methodName == "server.load" {
        // per-session diagnostics and other processors' internals
        return Unmodelled;
      } else {
        // logged: unknown method
        result := JNull;
      }
      if result != JStr("") {
        if request.id.None? {
          return Raised("KeyError");
        }
        requests.PushResponse(Response(request.id.value, None, None, Some(result), None));
      }
      outcome := Completed;
    }
  }
}
