/**
  The service list of a bootstrap file (section 3 of RFC 9224) and the trimming of its
  server URLs.
*/
module BootstrapFile {
  import opened Wrappers

  datatype RdapError = InvalidInput | NoServerFound | LoadFailed

  datatype Service = Service(patterns: seq<string>, servers: seq<string>)

  function TrimEnd(text: string, c: char): (trimmed: string)
    ensures trimmed <= text
    ensures trimmed == "" || trimmed[|trimmed| - 1] != c
    ensures forall i | |trimmed| <= i < |text| :: text[i] == c
  {
    if text != "" && text[|text| - 1] == c then TrimEnd(text[..|text| - 1], c) else text
  }

  function Kept(server: string): seq<string> {
    if TrimEnd(server, '/') == "" then [] else [TrimEnd(server, '/')]
  }

  /** The server URLs without trailing slashes, empty ones dropped. */
  function UsableServers(servers: seq<string>): (usable: seq<string>)
    ensures forall s | s in usable :: s != "" && s[|s| - 1] != '/'
  {
    if servers == [] then [] else Kept(servers[0]) + UsableServers(servers[1..])
  }

  lemma UsableCons(server: string, rest: seq<string>)
    ensures UsableServers([server] + rest) == Kept(server) + UsableServers(rest)
  {
    assert ([server] + rest)[1..] == rest;
  }

  lemma Associates<T>(a: seq<T>, b: seq<T>, c: seq<T>)
    ensures (a + b) + c == a + (b + c)
  {
  }

  /** Whether a server is kept does not depend on its neighbours, and the order stays. */
  lemma {:induction false} UsableServersInParts(front: seq<string>, back: seq<string>)
    ensures UsableServers(front + back) == UsableServers(front) + UsableServers(back)
  {
    if front == [] {
      assert front + back == back;
    } else {
      var server, rest := front[0], front[1..];
      UsableServersInParts(rest, back);
      UsableCons(server, rest + back);
      Associates([server], rest, back);
      assert front == [server] + rest;
      Associates(Kept(server), UsableServers(rest), UsableServers(back));
    }
  }

  /** A server is dropped exactly when it is nothing but slashes, and kept without those at its end. */
  lemma OneServer(server: string)
    ensures UsableServers([server]) == if forall c | c in server :: c == '/' then [] else [TrimEnd(server, '/')]
  {
    var trimmed := TrimEnd(server, '/');
    assert UsableServers([server]) == Kept(server) + UsableServers([]);
    if trimmed == "" {
      assert forall i | 0 <= i < |server| :: server[i] == '/';
    } else {
      var last := trimmed[|trimmed| - 1];
      assert server[|trimmed| - 1] == last && last in server;
    }
  }

  function FirstServer(servers: seq<string>): Option<string> {
    if servers == [] then None
    else if TrimEnd(servers[0], '/') != "" then Some(TrimEnd(servers[0], '/'))
    else FirstServer(servers[1..])
  }

  /** A service without a usable server is the one that `FirstServer` rejects. */
  lemma {:induction false} FirstServerIsHead(servers: seq<string>)
    ensures FirstServer(servers) == if UsableServers(servers) == [] then None else Some(UsableServers(servers)[0])
  {
    if servers != [] { FirstServerIsHead(servers[1..]); }
  }
}
