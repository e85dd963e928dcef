/**
  DNS service discovery: the index built from a bootstrap file, the probing of label
  suffixes, and the direct search of the file that both must agree with (section 4 of
  RFC 9224). Letters are ASCII.
*/
module DnsBootstrap {
  import opened BootstrapFile
  import opened Wrappers

  // ── Names and labels ──────────────────────────────────────────────────────────

  function LowerChar(c: char): char {
    if 'A' <= c <= 'Z' then (c as int + 32) as char else c
  }

  function Lower(text: string): (lowered: string)
    ensures |lowered| == |text|
    ensures forall i | 0 <= i < |text| :: lowered[i] == LowerChar(text[i])
  {
    seq(|text|, i requires 0 <= i < |text| => LowerChar(text[i]))
  }

  predicate IsSpace(c: char) { c == ' ' || '\t' <= c <= '\r' }

  function TrimSpaces(text: string): string {
    if text != "" && IsSpace(text[0]) then TrimSpaces(text[1..])
    else if text != "" && IsSpace(text[|text| - 1]) then TrimSpaces(text[..|text| - 1])
    else text
  }

  predicate Blank(text: string) { forall i | 0 <= i < |text| :: IsSpace(text[i]) }

  /** `text` with `core` cut out is blank on both sides, and `core` has no space at its ends. */
  predicate IsCore(text: string, start: nat, core: string) {
    && start + |core| <= |text| && text[start..start + |core|] == core
    && Blank(text[..start]) && Blank(text[start + |core|..])
    && (core != "" ==> !IsSpace(core[0]) && !IsSpace(core[|core| - 1]))
  }

  lemma CoreOfLonger(text: string, start: nat, core: string, c: char)
    requires IsCore(text, start, core) && IsSpace(c)
    ensures IsCore([c] + text, start + 1, core) && IsCore(text + [c], start, core)
  {
    var end := start + |core|;
    assert ([c] + text)[start + 1..end + 1] == core && (text + [c])[start..end] == core;
    assert ([c] + text)[..start + 1] == [c] + text[..start] && ([c] + text)[end + 1..] == text[end..];
    assert (text + [c])[..start] == text[..start] && (text + [c])[end..] == text[end..] + [c];
  }

  /** Trimming removes the white space around the text and nothing else. */
  lemma {:induction false} TrimmedIsCore(text: string) returns (start: nat)
    ensures IsCore(text, start, TrimSpaces(text))
    decreases |text|
  {
    if text != "" && IsSpace(text[0]) {
      start := TrimmedIsCore(text[1..]);
      CoreOfLonger(text[1..], start, TrimSpaces(text), text[0]);
      assert [text[0]] + text[1..] == text;
      start := start + 1;
    } else if text != "" && IsSpace(text[|text| - 1]) {
      var front := text[..|text| - 1];
      start := TrimmedIsCore(front);
      CoreOfLonger(front, start, TrimSpaces(text), text[|text| - 1]);
      assert front + [text[|text| - 1]] == text;
    } else {
      start := 0;
      assert text[0..|text|] == text;
    }
  }

  /** The name as it is looked up: no final dots, lower case. */
  function Canonical(domain: string): (name: string)
    ensures name == "" || name[|name| - 1] != '.'
  {
    Lower(TrimEnd(domain, '.'))
  }

  function NormalizeDomainInput(domain: string): Result<string, RdapError> {
    var normalized := Canonical(TrimSpaces(domain));
    if normalized == "" then Err(InvalidInput) else Ok(normalized)
  }

  predicate SameLetter(a: char, b: char) {
    || a == b
    || ('A' <= a <= 'Z' && 'a' <= b <= 'z' && a as int - 'A' as int == b as int - 'a' as int)
    || ('A' <= b <= 'Z' && 'a' <= a <= 'z' && b as int - 'A' as int == a as int - 'a' as int)
  }

  predicate SameButCase(a: string, b: string) { |a| == |b| && forall i | 0 <= i < |a| :: SameLetter(a[i], b[i]) }

  /** A canonical name is the given one without its final dots, the same up to case, all of it in lower case. */
  lemma CanonicalKeepsLetters(domain: string) returns (kept: nat)
    ensures kept <= |domain| && forall i | kept <= i < |domain| :: domain[i] == '.'
    ensures SameButCase(Canonical(domain), domain[..kept])
    ensures forall i | 0 <= i < |Canonical(domain)| :: !('A' <= Canonical(domain)[i] <= 'Z')
  {
    kept := |TrimEnd(domain, '.')|;
  }

  /** The lookup canonicalizes again what normalization already did. */
  lemma CanonicalIsIdempotent(domain: string)
    ensures Canonical(Canonical(domain)) == Canonical(domain)
  {
    var name := Canonical(domain);
    assert TrimEnd(name, '.') == name;
    assert Lower(name) == name;
  }

  function FirstDot(name: string): (dot: nat)
    requires '.' in name
    ensures dot < |name| && name[dot] == '.' && '.' !in name[..dot]
  {
    if name[0] == '.' then 0 else 1 + FirstDot(name[1..])
  }

  function Split(name: string): (labels: seq<string>)
    ensures labels != []
  {
    if '.' !in name then [name]
    else
      var dot := FirstDot(name);
      [name[..dot]] + Split(name[dot + 1..])
  }

  function Join(labels: seq<string>): string
    requires labels != []
  {
    if |labels| == 1 then labels[0] else labels[0] + "." + Join(labels[1..])
  }

  /** `suffix` is `name` or what follows one of its dots. */
  predicate IsLabelSuffix(suffix: string, name: string) {
    && |suffix| <= |name|
    && name[|name| - |suffix|..] == suffix
    && (|suffix| < |name| ==> name[|name| - |suffix| - 1] == '.')
  }

  /** A label suffix of a name is the name itself or a label suffix of what follows its first dot. */
  lemma SuffixAfterFirstLabel(suffix: string, head: string, rest: string)
    requires '.' !in head
    ensures IsLabelSuffix(suffix, head + "." + rest) <==> suffix == head + "." + rest || IsLabelSuffix(suffix, rest)
  {
    var name := head + "." + rest;
    if |suffix| <= |rest| {
      assert name[|name| - |suffix|..] == rest[|rest| - |suffix|..];
    } else if |suffix| < |name| {
      assert name[|name| - |suffix| - 1] == head[|name| - |suffix| - 1];
    }
  }

  lemma CutAtFirstDot(suffix: string, name: string)
    requires '.' in name
    ensures IsLabelSuffix(suffix, name) <==> suffix == name || IsLabelSuffix(suffix, name[FirstDot(name) + 1..])
  {
    var dot := FirstDot(name);
    assert name == name[..dot] + "." + name[dot + 1..];
    SuffixAfterFirstLabel(suffix, name[..dot], name[dot + 1..]);
  }

  lemma DotlessSuffix(suffix: string, name: string)
    requires '.' !in name
    ensures IsLabelSuffix(suffix, name) <==> suffix == name
  {
    assert IsLabelSuffix(suffix, name) && |suffix| == |name| ==> suffix == name;
  }

  lemma JoinCons(first: string, labels: seq<string>)
    requires labels != []
    ensures Join([first] + labels) == first + "." + Join(labels)
  {
    assert ([first] + labels)[1..] == labels;
  }

  lemma {:induction false} JoinSplit(name: string)
    ensures Join(Split(name)) == name
    decreases |name|
  {
    if '.' in name {
      var dot := FirstDot(name);
      JoinSplit(name[dot + 1..]);
      JoinCons(name[..dot], Split(name[dot + 1..]));
      assert name == name[..dot] + "." + name[dot + 1..];
    }
  }

  // ── Longest matching suffix ───────────────────────────────────────────────────

  /** Probes the joined labels, dropping leading labels one at a time. */
  function Probe<V>(index: map<string, V>, labels: seq<string>): Option<V> {
    if labels == [] then None
    else if Join(labels) in index then Some(index[Join(labels)])
    else Probe(index, labels[1..])
  }

  function LongestSuffix<V>(index: map<string, V>, domain: string): Option<V> {
    var name := Canonical(domain);
    if name == "" then None else Probe(index, Split(name))
  }

  /** `key` is the longest label suffix of `name` among `keys`. */
  ghost predicate IsLongestMatch(keys: set<string>, name: string, key: string) {
    && key in keys && IsLabelSuffix(key, name)
    && forall other | other in keys && IsLabelSuffix(other, name) :: |other| <= |key|
  }

  ghost predicate HasMatch(keys: set<string>, name: string) {
    exists key :: key in keys && IsLabelSuffix(key, name)
  }

  lemma LongestMatchIsUnique(keys: set<string>, name: string, first: string, second: string)
    requires IsLongestMatch(keys, name, first) && IsLongestMatch(keys, name, second)
    ensures first == second
  {
    assert |first| == |second|;
    assert first == name[|name| - |first|..];
    assert second == name[|name| - |second|..];
  }

  /** A name that is no key matches what the rest after its first dot matches. */
  lemma SameMatches(keys: set<string>, name: string, rest: string, key: string)
    requires name !in keys && '.' in name && rest == name[FirstDot(name) + 1..]
    ensures HasMatch(keys, name) <==> HasMatch(keys, rest)
    ensures IsLongestMatch(keys, name, key) <==> IsLongestMatch(keys, rest, key)
  {
    forall other | other in keys ensures IsLabelSuffix(other, name) <==> IsLabelSuffix(other, rest) {
      CutAtFirstDot(other, name);
    }
  }

  /** Probing succeeds exactly when some key is a label suffix, and then finds the longest. */
  lemma {:induction false} ProbeFindsLongest<V>(index: map<string, V>, name: string) returns (key: string)
    ensures Probe(index, Split(name)).Some? <==> HasMatch(index.Keys, name)
    ensures Probe(index, Split(name)).Some? ==>
              IsLongestMatch(index.Keys, name, key) && Probe(index, Split(name)) == Some(index[key])
    decreases |name|
  {
    JoinSplit(name);
    key := name;
    if name in index {
      assert IsLabelSuffix(name, name);
    } else if '.' in name {
      var rest := name[FirstDot(name) + 1..];
      key := ProbeFindsLongest(index, rest);
      assert Split(name)[1..] == Split(rest);
      SameMatches(index.Keys, name, rest, key);
    } else {
      assert Split(name)[1..] == [];
      forall other | other in index ensures !IsLabelSuffix(other, name) { DotlessSuffix(other, name); }
    }
  }

  /** The lookup returns the entry of the longest label suffix present, whatever the index. */
  lemma LongestSuffixIsLongestMatch<V>(index: map<string, V>, domain: string) returns (key: string)
    ensures var name := Canonical(domain);
            && (LongestSuffix(index, domain).Some? <==> name != "" && HasMatch(index.Keys, name))
            && (LongestSuffix(index, domain).Some? ==>
                  IsLongestMatch(index.Keys, name, key) && LongestSuffix(index, domain) == Some(index[key]))
  {
    key := ProbeFindsLongest(index, Canonical(domain));
  }

  // ── The index ─────────────────────────────────────────────────────────────────

  type Index = map<string, seq<string>>

  /** The servers of one service, once for every pattern that spells `key`. */
  function Listed(patterns: seq<string>, servers: seq<string>, key: string): seq<string> {
    if patterns == [] then []
    else
      var n := |patterns| - 1;
      Listed(patterns[..n], servers, key) + (if Lower(patterns[n]) == key then servers else [])
  }

  /** All servers the file gives for `key`, in file order. */
  function ServersFor(services: seq<Service>, key: string): seq<string> {
    if services == [] then []
    else
      var n := |services| - 1;
      ServersFor(services[..n], key) + Listed(services[n].patterns, UsableServers(services[n].servers), key)
  }

  function Entry(index: Index, key: string): seq<string> {
    if key in index then index[key] else []
  }

  /** `index` holds what the file gives for each key, and no key without servers. */
  ghost predicate Indexes(index: Index, services: seq<Service>) {
    forall key :: Entry(index, key) == ServersFor(services, key) && (key in index ==> index[key] != [])
  }

  /** `index` holds what `done` gives for each key and, after it, what `patterns` adds. */
  ghost predicate Extends(index: Index, done: seq<Service>, patterns: seq<string>, servers: seq<string>) {
    forall key ::
      && Entry(index, key) == ServersFor(done, key) + Listed(patterns, servers, key)
      && (key in index ==> index[key] != [])
  }

  lemma ListedWithLast(patterns: seq<string>, pattern: string, servers: seq<string>, key: string)
    ensures Listed(patterns + [pattern], servers, key)
         == Listed(patterns, servers, key) + (if Lower(pattern) == key then servers else [])
  {
    assert (patterns + [pattern])[..|patterns|] == patterns;
  }

  /** One pattern more leaves the other keys alone and appends to its own. */
  lemma AppendPattern(index: Index, more: Index, done: seq<Service>, patterns: seq<string>, servers: seq<string>,
      pattern: string)
    requires servers != [] && Extends(index, done, patterns, servers)
    requires more == index[Lower(pattern) := Entry(index, Lower(pattern)) + servers]
    ensures Extends(more, done, patterns + [pattern], servers)
  {
    forall key
      ensures Entry(more, key) == ServersFor(done, key) + Listed(patterns + [pattern], servers, key)
      ensures key in more ==> more[key] != []
    {
      ListedWithLast(patterns, pattern, servers, key);
      Associates(ServersFor(done, key), Listed(patterns, servers, key), if Lower(pattern) == key then servers else []);
      assert Entry(more, key) == Entry(index, key) + (if Lower(pattern) == key then servers else []);
    }
  }

  /** The pattern loop: appends `servers` to the entry of every pattern. */
  method AddService(before: Index, ghost done: seq<Service>, patterns: seq<string>, servers: seq<string>)
    returns (index: Index)
    requires servers != [] && Indexes(before, done)
    ensures Extends(index, done, patterns, servers)
  {
    index := before;
    for j := 0 to |patterns|
      invariant Extends(index, done, patterns[..j], servers)
    {
      ghost var was := index;
      var key := Lower(patterns[j]);
      index := index[key := Entry(index, key) + servers];
      AppendPattern(was, index, done, patterns[..j], servers, patterns[j]);
      assert patterns[..j + 1] == patterns[..j] + [patterns[j]];
    }
    assert patterns[..|patterns|] == patterns;
  }

  lemma {:induction false} NothingListed(patterns: seq<string>, key: string)
    ensures Listed(patterns, [], key) == []
  {
    if patterns != [] { NothingListed(patterns[..|patterns| - 1], key); }
  }

  method BuildIndex(services: seq<Service>) returns (index: Index)
    ensures Indexes(index, services)
  {
    index := map[];
    for i := 0 to |services|
      invariant Indexes(index, services[..i])
    {
      assert services[..i + 1][..i] == services[..i];
      var servers := UsableServers(services[i].servers);
      if servers == [] {
        forall key ensures Listed(services[i].patterns, servers, key) == [] {
          NothingListed(services[i].patterns, key);
        }
        continue;
      }
      index := AddService(index, services[..i], services[i].patterns, servers);
    }
    assert services[..|services|] == services;
  }

  // ── The direct search ─────────────────────────────────────────────────────────

  /** The service has a usable server and lists `key`. */
  ghost predicate Offers(service: Service, key: string) {
    FirstServer(service.servers).Some? && exists pattern | pattern in service.patterns :: Lower(pattern) == key
  }

  ghost predicate EarliestOffer(services: seq<Service>, key: string, i: nat) {
    i < |services| && Offers(services[i], key) && forall j | 0 <= j < i :: !Offers(services[j], key)
  }

  /** The keys of the services with a usable server. */
  ghost function OfferedKeys(services: seq<Service>): set<string> {
    set i, pattern | 0 <= i < |services| && FirstServer(services[i].servers).Some? && pattern in services[i].patterns ::
      Lower(pattern)
  }

  lemma {:induction false} ListedHead(patterns: seq<string>, servers: seq<string>, key: string)
    requires servers != []
    ensures Listed(patterns, servers, key) != [] <==> exists pattern | pattern in patterns :: Lower(pattern) == key
    ensures Listed(patterns, servers, key) != [] ==> Listed(patterns, servers, key)[0] == servers[0]
  {
    if patterns != [] {
      var n := |patterns| - 1;
      ListedHead(patterns[..n], servers, key);
      assert patterns == patterns[..n] + [patterns[n]];
    }
  }

  lemma ServiceHead(service: Service, key: string)
    ensures var listed := Listed(service.patterns, UsableServers(service.servers), key);
            && (listed != [] <==> Offers(service, key))
            && (listed != [] ==> FirstServer(service.servers) == Some(listed[0]))
  {
    FirstServerIsHead(service.servers);
    if UsableServers(service.servers) == [] {
      NothingListed(service.patterns, key);
    } else {
      ListedHead(service.patterns, UsableServers(service.servers), key);
    }
  }

  ghost predicate IsOffered(services: seq<Service>, key: string) {
    exists j :: 0 <= j < |services| && Offers(services[j], key)
  }

  lemma OfferedWithLast(services: seq<Service>, key: string, i: nat)
    requires services != []
    ensures var n := |services| - 1;
            && (IsOffered(services, key) <==> IsOffered(services[..n], key) || Offers(services[n], key))
            && (EarliestOffer(services[..n], key, i) ==> EarliestOffer(services, key, i))
            && (!IsOffered(services[..n], key) && Offers(services[n], key) ==> EarliestOffer(services, key, n))
  {
    var n := |services| - 1;
    assert forall j | 0 <= j < n :: services[..n][j] == services[j];
  }

  /** The first server of a key is the first usable server of the earliest service offering it. */
  lemma {:induction false} ServersForHead(services: seq<Service>, key: string) returns (i: nat)
    ensures ServersFor(services, key) != [] <==> IsOffered(services, key)
    ensures ServersFor(services, key) != [] ==>
              EarliestOffer(services, key, i) && FirstServer(services[i].servers) == Some(ServersFor(services, key)[0])
  {
    i := 0;
    if services != [] {
      var n := |services| - 1;
      i := ServersForHead(services[..n], key);
      ServiceHead(services[n], key);
      OfferedWithLast(services, key, i);
      if ServersFor(services[..n], key) == [] { i := n; }
    }
  }

  lemma {:induction false} ListedMembers(patterns: seq<string>, servers: seq<string>, key: string, server: string)
    ensures server in Listed(patterns, servers, key)
       <==> server in servers && exists pattern | pattern in patterns :: Lower(pattern) == key
  {
    if patterns != [] {
      var n := |patterns| - 1;
      ListedMembers(patterns[..n], servers, key, server);
      assert patterns == patterns[..n] + [patterns[n]];
    }
  }

  /** The service lists `key`, and `server` is one of its usable servers. */
  ghost predicate Gives(service: Service, key: string, server: string) {
    server in UsableServers(service.servers) && exists pattern | pattern in service.patterns :: Lower(pattern) == key
  }

  ghost predicate Given(services: seq<Service>, key: string, server: string) {
    exists i :: 0 <= i < |services| && Gives(services[i], key, server)
  }

  lemma GivenWithLast(services: seq<Service>, key: string, server: string)
    requires services != []
    ensures var n := |services| - 1;
            Given(services, key, server) <==> Given(services[..n], key, server) || Gives(services[n], key, server)
  {
    hide Gives;
    var n := |services| - 1;
    assert forall i | 0 <= i < n :: services[..n][i] == services[i];
    if Given(services[..n], key, server) {
      var i :| 0 <= i < n && Gives(services[..n][i], key, server);
      assert Gives(services[i], key, server);
    }
  }

  /** A key's servers are the usable servers of all the services that list it, not of the earliest alone. */
  lemma {:induction false} EveryServerIsIndexed(services: seq<Service>, key: string, server: string)
    ensures server in ServersFor(services, key) <==> Given(services, key, server)
  {
    if services != [] {
      var n := |services| - 1;
      ListedMembers(services[n].patterns, UsableServers(services[n].servers), key, server);
      assert Gives(services[n], key, server)
        <==> server in Listed(services[n].patterns, UsableServers(services[n].servers), key);
      hide Given, Gives, Listed, UsableServers;
      GivenWithLast(services, key, server);
      EveryServerIsIndexed(services[..n], key, server);
    }
  }

  lemma IndexedKeysAreOffered(index: Index, services: seq<Service>)
    requires Indexes(index, services)
    ensures index.Keys == OfferedKeys(services)
  {
    forall key ensures key in index <==> key in OfferedKeys(services) {
      var i := ServersForHead(services, key);
      assert Entry(index, key) == ServersFor(services, key);
      if key in OfferedKeys(services) {
        var j, pattern :| 0 <= j < |services| && FirstServer(services[j].servers).Some?
                          && pattern in services[j].patterns && Lower(pattern) == key;
        assert Offers(services[j], key);
      }
    }
  }

  // ── The resolver ──────────────────────────────────────────────────────────────

  /** `loaded` is the index the loader yields; it is consulted after the custom servers. */
  function ForDomain(custom: map<string, string>, loaded: Result<Index, RdapError>, domain: string)
    : Result<string, RdapError>
  {
    match NormalizeDomainInput(domain)
    case Err(error) => Err(error)
    case Ok(name) =>
      match LongestSuffix(custom, name)
      case Some(server) => Ok(server)
      case None =>
        match loaded
        case Err(error) => Err(error)
        case Ok(index) =>
          match LongestSuffix(index, name)
          case Some(servers) => if servers == [] then Err(NoServerFound) else Ok(servers[0])
          case None => Err(NoServerFound)
  }

  /** The answer a direct search of the custom servers and then of the service list gives. */
  ghost predicate IsDirectAnswer(custom: map<string, string>, services: seq<Service>, domain: string,
      answer: Result<string, RdapError>) {
    var name := Canonical(TrimSpaces(domain));
    if name == "" then answer == Err(InvalidInput)
    else if HasMatch(custom.Keys, name) then
      exists key :: IsLongestMatch(custom.Keys, name, key) && answer == Ok(custom[key])
    else if HasMatch(OfferedKeys(services), name) then
      exists key, i: nat ::
        && IsLongestMatch(OfferedKeys(services), name, key)
        && EarliestOffer(services, key, i)
        && answer == Ok(FirstServer(services[i].servers).value)
    else answer == Err(NoServerFound)
  }

  lemma DirectAnswerIsUnique(custom: map<string, string>, services: seq<Service>, domain: string,
                             first: Result<string, RdapError>, second: Result<string, RdapError>)
    requires IsDirectAnswer(custom, services, domain, first) && IsDirectAnswer(custom, services, domain, second)
    ensures first == second
  {
    var name := Canonical(TrimSpaces(domain));
    if name != "" {
      if HasMatch(custom.Keys, name) {
        var k :| IsLongestMatch(custom.Keys, name, k) && first == Ok(custom[k]);
        var m :| IsLongestMatch(custom.Keys, name, m) && second == Ok(custom[m]);
        LongestMatchIsUnique(custom.Keys, name, k, m);
      } else if HasMatch(OfferedKeys(services), name) {
        var keys := OfferedKeys(services);
        var k, i: nat :| IsLongestMatch(keys, name, k) && EarliestOffer(services, k, i)
                         && first == Ok(FirstServer(services[i].servers).value);
        var m, j: nat :| IsLongestMatch(keys, name, m) && EarliestOffer(services, m, j)
                         && second == Ok(FirstServer(services[j].servers).value);
        LongestMatchIsUnique(keys, name, k, m);
        assert i == j;
      }
    }
  }

  lemma ResolverAnswersDirectly(custom: map<string, string>, index: Index, services: seq<Service>, domain: string)
    requires Indexes(index, services)
    ensures IsDirectAnswer(custom, services, domain, ForDomain(custom, Ok(index), domain))
  {
    var name := Canonical(TrimSpaces(domain));
    CanonicalIsIdempotent(TrimSpaces(domain));
    if name != "" {
      var k := LongestSuffixIsLongestMatch(custom, name);
      if !HasMatch(custom.Keys, name) {
        var key := LongestSuffixIsLongestMatch(index, name);
        IndexedKeysAreOffered(index, services);
        if HasMatch(index.Keys, name) {
          assert Entry(index, key) == ServersFor(services, key);
          var i := ServersForHead(services, key);
        }
      }
    }
  }

  /** Index and probing together answer exactly as the direct search does, errors included. */
  lemma ResolverIsDirectSearch(custom: map<string, string>, index: Index, services: seq<Service>, domain: string)
    requires Indexes(index, services)
    ensures forall answer ::
              IsDirectAnswer(custom, services, domain, answer) <==> answer == ForDomain(custom, Ok(index), domain)
  {
    ResolverAnswersDirectly(custom, index, services, domain);
    forall answer | IsDirectAnswer(custom, services, domain, answer)
      ensures answer == ForDomain(custom, Ok(index), domain)
    {
      DirectAnswerIsUnique(custom, services, domain, answer, ForDomain(custom, Ok(index), domain));
    }
  }

  /** `NoServerFound` is answered exactly when no custom key and no pattern of a usable service is a suffix. */
  lemma NoServerFoundIffNothingListed(custom: map<string, string>, index: Index, services: seq<Service>, domain: string)
    requires Indexes(index, services)
    ensures var name := Canonical(TrimSpaces(domain));
            ForDomain(custom, Ok(index), domain) == Err(NoServerFound) <==>
              && name != ""
              && (forall key | key in custom :: !IsLabelSuffix(key, name))
              && (forall service, pattern | service in services && FirstServer(service.servers).Some?
                   && pattern in service.patterns ::
                    !IsLabelSuffix(Lower(pattern), name))
  {
    var name := Canonical(TrimSpaces(domain));
    ResolverIsDirectSearch(custom, index, services, domain);
    assert IsDirectAnswer(custom, services, domain, ForDomain(custom, Ok(index), domain));
    forall service, pattern | service in services && FirstServer(service.servers).Some? && pattern in service.patterns
      ensures Lower(pattern) in OfferedKeys(services)
    {
    }
  }

  /** The same letter, in either case. */
  lemma LowerIgnoresCase(a: string, b: string)
    requires SameButCase(a, b)
    ensures Lower(a) == Lower(b)
  {
  }

  lemma {:induction false} TrimmingIgnoresCase(a: string, b: string)
    requires SameButCase(a, b)
    ensures SameButCase(TrimSpaces(a), TrimSpaces(b))
    decreases |a|
  {
    if a != "" && IsSpace(a[0]) { TrimmingIgnoresCase(a[1..], b[1..]); }
    else if a != "" && IsSpace(a[|a| - 1]) { TrimmingIgnoresCase(a[..|a| - 1], b[..|b| - 1]); }
  }

  lemma {:induction false} TrimEndIgnoresCase(a: string, b: string)
    requires SameButCase(a, b)
    ensures SameButCase(TrimEnd(a, '.'), TrimEnd(b, '.'))
    decreases |a|
  {
    if a != "" && a[|a| - 1] == '.' { TrimEndIgnoresCase(a[..|a| - 1], b[..|b| - 1]); }
  }

  /** Names that differ only in the case of their letters get the same answer. */
  lemma CaseDoesNotMatter(custom: map<string, string>, loaded: Result<Index, RdapError>, a: string, b: string)
    requires SameButCase(a, b)
    ensures ForDomain(custom, loaded, a) == ForDomain(custom, loaded, b)
  {
    TrimmingIgnoresCase(a, b);
    TrimEndIgnoresCase(TrimSpaces(a), TrimSpaces(b));
    LowerIgnoresCase(TrimEnd(TrimSpaces(a), '.'), TrimEnd(TrimSpaces(b), '.'));
  }

  lemma TrimmedDot(domain: string)
    requires domain == TrimSpaces(domain)
    ensures TrimSpaces(domain + ".") == domain + "."
  {
    var start := TrimmedIsCore(domain);
    var dotted := domain + ".";
    if domain != "" { assert dotted[0] == domain[0] && !IsSpace(domain[0]); }
  }

  /** A final dot does not matter either. */
  lemma FinalDotDoesNotMatter(custom: map<string, string>, loaded: Result<Index, RdapError>, domain: string)
    requires domain == TrimSpaces(domain)
    ensures ForDomain(custom, loaded, domain + ".") == ForDomain(custom, loaded, domain)
  {
    TrimmedDot(domain);
    hide LongestSuffix, TrimSpaces, Lower;
    assert (domain + ".")[..|domain|] == domain;
    assert TrimEnd(domain + ".", '.') == TrimEnd(domain, '.');
  }

  /** A pattern in the file is found whatever the case it is spelled in there. */
  lemma PatternCaseDoesNotMatter(services: seq<Service>, key: string, a: string, b: string)
    requires SameButCase(a, b)
    ensures forall s: seq<string> :: Offers(Service([a], s), key) <==> Offers(Service([b], s), key)
  {
    LowerIgnoresCase(a, b);
    assert a in [a] && b in [b];
    forall s: seq<string> ensures Offers(Service([a], s), key) <==> Offers(Service([b], s), key) {
      assert Service([a], s).patterns[0] == a && Service([b], s).patterns[0] == b;
    }
  }

  /** A custom match answers without the index: a failed load does not matter to it. */
  lemma CustomAnswersWithoutIndex(custom: map<string, string>, loaded: Result<Index, RdapError>, domain: string)
    requires HasMatch(custom.Keys, Canonical(TrimSpaces(domain))) && Canonical(TrimSpaces(domain)) != ""
    ensures ForDomain(custom, loaded, domain).Ok?
    ensures exists key :: IsLongestMatch(custom.Keys, Canonical(TrimSpaces(domain)), key)
                          && ForDomain(custom, loaded, domain) == Ok(custom[key])
  {
    CanonicalIsIdempotent(TrimSpaces(domain));
    var key := LongestSuffixIsLongestMatch(custom, Canonical(TrimSpaces(domain)));
  }

  /** The loader's error is answered exactly for a name that is not empty and has no custom match. */
  lemma LoadErrorIsPassedOn(custom: map<string, string>, error: RdapError, domain: string)
    requires error != InvalidInput
    ensures var name := Canonical(TrimSpaces(domain));
            ForDomain(custom, Err(error), domain) == Err(error) <==> name != "" && !HasMatch(custom.Keys, name)
  {
    CanonicalIsIdempotent(TrimSpaces(domain));
    if Canonical(TrimSpaces(domain)) != "" {
      var key := LongestSuffixIsLongestMatch(custom, Canonical(TrimSpaces(domain)));
    }
  }
}
