/** The hostname check of the verified HTTPS connection: the peer
    certificate, as `getpeercert()` reports it, is reduced to its first
    subject common name and its DNS-typed subjectAltName entries, and the
    connection is refused unless the requested host equals one of them.
    The wildcard rule the connection's tests exercise is stated separately,
    following section 3.1 of RFC 2818. */
module HttplibSsl {
  import opened Wrappers
  import opened Strings
  import opened PyValues

  /** One attribute of a relative distinguished name, (key, value), such as
      ("commonName", "example.com"). */
  type Attribute = (string, string)

  /** A relative distinguished name. The code reads its first attribute
      only, so an RDN always has one. */
  type Rdn = s: seq<Attribute> | |s| > 0 witness [("", "")]

  /** A subjectAltName item, (type tag, name), such as ("DNS", "example.com"). */
  type AltName = (string, string)

  /** The certificate dictionary; `None` stands for an absent key. */
  datatype PeerCert = PeerCert(subject: Option<seq<Rdn>>, subjectAltName: Option<seq<AltName>>)

  predicate IsCommonNameKey(key: string) { Lower(key) == "commonname" }

  predicate IsDnsTag(tag: string) { Lower(tag) == "dns" }

  // ---------------------------------------------------------------------
  // _get_commonName

  /** The value of the first RDN whose first key is commonName. */
  function FirstCommonName(rdns: seq<Rdn>): Option<string> {
    if rdns == [] then None
    else if IsCommonNameKey(rdns[0][0].0) then Some(rdns[0][0].1)
    else FirstCommonName(rdns[1..])
  }

  function CommonNameOf(cert: PeerCert): Option<string> {
    match cert.subject
    case None => None
    case Some(rdns) => FirstCommonName(rdns)
  }

  /** Position `i` holds the first common name of the subject. */
  predicate IsFirstCommonName(rdns: seq<Rdn>, i: int) {
    && 0 <= i < |rdns|
    && IsCommonNameKey(rdns[i][0].0)
    && forall j :: 0 <= j < i ==> !IsCommonNameKey(rdns[j][0].0)
  }

  /** The common name is the value at the first commonName entry, and there
      is none exactly when no entry is a commonName. */
  lemma {:induction false} FirstCommonNameSpec(rdns: seq<Rdn>)
    ensures FirstCommonName(rdns).None? <==> forall i :: 0 <= i < |rdns| ==> !IsCommonNameKey(rdns[i][0].0)
    ensures FirstCommonName(rdns).Some? ==>
      exists i :: IsFirstCommonName(rdns, i) && FirstCommonName(rdns).value == rdns[i][0].1
  {
    if rdns == [] {
    } else if IsCommonNameKey(rdns[0][0].0) {
      assert IsFirstCommonName(rdns, 0);
    } else {
      var rest := rdns[1..];
      FirstCommonNameSpec(rest);
      assert forall i :: 1 <= i < |rdns| ==> rdns[i] == rest[i - 1];
      if FirstCommonName(rest).Some? {
        var i :| IsFirstCommonName(rest, i) && FirstCommonName(rest).value == rest[i][0].1;
        assert IsFirstCommonName(rdns, i + 1);
      } else {
        assert forall i :: 0 <= i < |rdns| ==> !IsCommonNameKey(rdns[i][0].0) by {
          forall i | 0 <= i < |rdns| ensures !IsCommonNameKey(rdns[i][0].0) {
            if i > 0 { assert rdns[i] == rest[i - 1]; }
          }
        }
      }
    }
  }

  /** `_get_commonName`: scan the subject and return at the first commonName. */
  method GetCommonName(cert: PeerCert) returns (r: Option<string>)
    ensures r == CommonNameOf(cert)
  {
    if cert.subject.None? {
      return None;
    }
    var rdns := cert.subject.value;
    var i := 0;
    while i < |rdns|
      invariant 0 <= i <= |rdns|
      invariant FirstCommonName(rdns[i..]) == FirstCommonName(rdns)
    {
      if Lower(rdns[i][0].0) == "commonname" {
        return Some(rdns[i][0].1);
      }
      assert rdns[i..][1..] == rdns[i + 1..];
      i := i + 1;
    }
    return None;
  }

  // ---------------------------------------------------------------------
  // _get_subjectAltName

  /** What the loop collects: for each DNS-typed item, in order, its first
      component. That component is the type tag (`value[0]`), not the name. */
  function DnsTagged(items: seq<AltName>): seq<string> {
    if items == [] then []
    else
      var last := items[|items| - 1];
      DnsTagged(items[..|items| - 1]) + (if IsDnsTag(last.0) then [last.0] else [])
  }

  function AltNamesOf(cert: PeerCert): Option<seq<string>> {
    match cert.subjectAltName
    case None => None
    case Some(items) => Some(DnsTagged(items))
  }

  /** `_get_subjectAltName`: `None` without the key, otherwise the list built
      by appending in a loop. */
  method GetSubjectAltName(cert: PeerCert) returns (r: Option<seq<string>>)
    ensures r == AltNamesOf(cert)
  {
    if cert.subjectAltName.None? {
      return None;
    }
    var items := cert.subjectAltName.value;
    var altNames: seq<string> := [];
    var i := 0;
    while i < |items|
      invariant 0 <= i <= |items|
      invariant altNames == DnsTagged(items[..i])
    {
      assert items[..i + 1][..i] == items[..i];
      if Lower(items[i].0) == "dns" {
        altNames := altNames + [items[i].0];
      }
      i := i + 1;
    }
    assert items[..i] == items;
    return Some(altNames);
  }

  function DnsPositions(items: seq<AltName>): set<int> {
    set i | 0 <= i < |items| && IsDnsTag(items[i].0)
  }

  /** The list has exactly one entry per DNS-typed item. */
  lemma {:induction false} AltNamesOnePerDnsItem(items: seq<AltName>)
    ensures |DnsTagged(items)| == |DnsPositions(items)|
  {
    if items != [] {
      var last := |items| - 1;
      var init := items[..last];
      AltNamesOnePerDnsItem(init);
      DnsPositionsSnoc(items);
    }
  }

  lemma DnsPositionsSnoc(items: seq<AltName>)
    requires items != []
    ensures var last := |items| - 1;
      && last !in DnsPositions(items[..last])
      && DnsPositions(items) == DnsPositions(items[..last]) + (if IsDnsTag(items[last].0) then {last} else {})
  {
    var last := |items| - 1;
    var init := items[..last];
    forall i ensures i in DnsPositions(items) <==> i in DnsPositions(init) + (if IsDnsTag(items[last].0) then {last} else {}) {
      if 0 <= i < last { assert init[i] == items[i]; }
    }
  }

  /** Because the type tag is appended instead of the name, every entry of
      the list is a spelling of "dns". */
  lemma {:induction false} AltNamesAreTypeTags(items: seq<AltName>)
    ensures forall n :: n in DnsTagged(items) ==> IsDnsTag(n)
  {
    if items != [] {
      AltNamesAreTypeTags(items[..|items| - 1]);
    }
  }

  // ---------------------------------------------------------------------
  // _verify_hostname and connect

  /** `_verify_hostname`. When the certificate has no subjectAltName and the
      common name differs, `hostname in None` raises TypeError. */
  function VerifyHostname(hostname: string, cert: PeerCert): (r: Outcome<bool>)
    ensures r == Success(true) <==>
      CommonNameOf(cert) == Some(hostname) || (AltNamesOf(cert).Some? && hostname in AltNamesOf(cert).value)
    ensures r.Failure? <==> CommonNameOf(cert) != Some(hostname) && cert.subjectAltName.None?
    ensures r.Failure? ==> r.error == TypeError
  {
    if CommonNameOf(cert) == Some(hostname) then Success(true)
    else
      match AltNamesOf(cert)
      case None => Failure(TypeError)
      case Some(names) => Success(hostname in names)
  }

  /** A certificate whose subject names the host as its common name is
      accepted, whatever its subjectAltName says. */
  lemma HostnameMatchingCommonNameVerifies(hostname: string, rdns: seq<Rdn>, alt: Option<seq<AltName>>)
    requires exists i :: IsFirstCommonName(rdns, i) && rdns[i][0].1 == hostname
    ensures VerifyHostname(hostname, PeerCert(Some(rdns), alt)) == Success(true)
  {
    var i :| IsFirstCommonName(rdns, i) && rdns[i][0].1 == hostname;
    FirstCommonNameSpec(rdns);
    var j :| IsFirstCommonName(rdns, j) && FirstCommonName(rdns).value == rdns[j][0].1;
    assert i == j;
  }

  /** A host accepted other than through the common name must itself be a
      spelling of "dns": the subjectAltName list never holds real names. */
  lemma AcceptedThroughAltNamesIsTypeTag(hostname: string, cert: PeerCert)
    requires VerifyHostname(hostname, cert) == Success(true)
    requires CommonNameOf(cert) != Some(hostname)
    ensures IsDnsTag(hostname)
  {
    AltNamesAreTypeTags(cert.subjectAltName.value);
  }

  /** So a host that is not a spelling of "dns" and is not the common name
      is refused, even when the certificate lists it as a DNS alt name. */
  lemma AltNameOnlyHostRefused(hostname: string, cert: PeerCert)
    requires cert.subjectAltName.Some? && CommonNameOf(cert) != Some(hostname)
    requires !IsDnsTag(hostname)
    ensures VerifyHostname(hostname, cert) == Success(false)
  {
    AltNamesAreTypeTags(cert.subjectAltName.value);
  }

  /** What the TLS handshake hands back; the model keeps the certificate
      `getpeercert()` reports for it. */
  datatype TlsSocket = TlsSocket(peerCert: PeerCert)

  class VerifiedHttpsConnection {
    const host: string
    const port: int
    var sock: Option<TlsSocket>

    constructor (host: string, port: int)
      ensures this.host == host && this.port == port && sock.None?
    {
      this.host := host;
      this.port := port;
      sock := None;
    }

    /** `connect`: the socket is stored first, then the host is checked and
        the connection refused with an SSL error when the check fails; there
        is no fallback. `peerCert` is the certificate the handshake yields. */
    method Connect(peerCert: PeerCert) returns (r: Outcome<()>)
      modifies this
      ensures sock == Some(TlsSocket(peerCert))
      ensures r.Success? <==> VerifyHostname(host, peerCert) == Success(true)
      ensures VerifyHostname(host, peerCert) == Success(false) ==>
        r == Failure(SslError("Failed to verify hostname"))
      ensures VerifyHostname(host, peerCert).Failure? ==> r == Failure(VerifyHostname(host, peerCert).error)
    {
      sock := Some(TlsSocket(peerCert));
      var verified := VerifyHostname(host, peerCert);
      if verified.Failure? {
        return Failure(verified.error);
      }
      if !verified.value {
        return Failure(SslError("Failed to verify hostname"));
      }
      return Success(());
    }
  }

  // ---------------------------------------------------------------------
  // Wildcard names (section 3.1 of RFC 2818)

  /** A name is a wildcard pattern when it contains `*`. */
  predicate IsWildcardName(name: string) { '*' in name }

  predicate DotFree(s: string) { '.' !in s }

  /** The whole host matches the pattern when each `*` stands for a
      non-empty fragment without dots and every other character is itself. */
  predicate WildcardMatch(pattern: string, host: string)
    decreases |pattern|
  {
    if pattern == [] then host == []
    else if pattern[0] == '*' then
      exists k :: 1 <= k <= |host| && DotFree(host[..k]) && WildcardMatch(pattern[1..], host[k..])
    else host != [] && host[0] == pattern[0] && WildcardMatch(pattern[1..], host[1..])
  }

  lemma WildcardNameExamples()
    ensures !IsWildcardName("foo.bar") && !IsWildcardName("bar.foo")
    ensures IsWildcardName("*.foo.bar") && IsWildcardName("*.*.foo.bar")
  {
    assert "*.foo.bar"[0] == '*';
    assert "*.*.foo.bar"[0] == '*';
  }

  /** A pattern without `*` matches exactly itself. */
  lemma {:induction false} LiteralPatternMatchesOnlyItself(pattern: string, host: string)
    requires !IsWildcardName(pattern)
    ensures WildcardMatch(pattern, host) <==> host == pattern
  {
    if pattern != [] {
      assert !IsWildcardName(pattern[1..]) by {
        assert forall c :: c in pattern[1..] ==> c in pattern;
      }
      if host != [] {
        LiteralPatternMatchesOnlyItself(pattern[1..], host[1..]);
        if host[0] == pattern[0] && host[1..] == pattern[1..] {
          assert host == [host[0]] + host[1..];
          assert pattern == [pattern[0]] + pattern[1..];
        }
      }
    }
  }

  /** A `*` never spans a dot: matched host and pattern have the same
      number of labels. */
  lemma {:induction false} WildcardKeepsLabels(pattern: string, host: string)
    requires WildcardMatch(pattern, host)
    ensures CountChar(host, '.') == CountChar(pattern, '.')
    decreases |pattern|
  {
    if pattern == [] {
    } else if pattern[0] == '*' {
      var k :| 1 <= k <= |host| && DotFree(host[..k]) && WildcardMatch(pattern[1..], host[k..]);
      WildcardKeepsLabels(pattern[1..], host[k..]);
      assert host == host[..k] + host[k..];
      CountCharConcat(host[..k], host[k..], '.');
      CountCharAbsent(host[..k], '.');
    } else {
      WildcardKeepsLabels(pattern[1..], host[1..]);
    }
  }

  /** A `*` stands for a non-empty fragment: the host is never shorter than
      the pattern. */
  lemma {:induction false} WildcardFragmentsNonEmpty(pattern: string, host: string)
    requires WildcardMatch(pattern, host)
    ensures |host| >= |pattern|
    decreases |pattern|
  {
    if pattern == [] {
    } else if pattern[0] == '*' {
      var k :| 1 <= k <= |host| && DotFree(host[..k]) && WildcardMatch(pattern[1..], host[k..]);
      WildcardFragmentsNonEmpty(pattern[1..], host[k..]);
    } else {
      WildcardFragmentsNonEmpty(pattern[1..], host[1..]);
    }
  }

  /** A leading `*` accepts any non-empty dot-free fragment in front of a
      host the rest of the pattern accepts. */
  lemma StarAcceptsAnyFragment(fragment: string, rest: string, host: string)
    requires fragment != [] && DotFree(fragment) && WildcardMatch(rest, host)
    ensures WildcardMatch("*" + rest, fragment + host)
  {
    var h := fragment + host;
    assert h[..|fragment|] == fragment && h[|fragment|..] == host;
    assert ("*" + rest)[1..] == rest;
  }

  lemma DotInside(host: string, i: int, k: int)
    requires 0 <= i < k <= |host| && host[i] == '.'
    ensures !DotFree(host[..k])
  {
    assert host[..k][i] == '.';
  }

  /** A `*` followed by a dot covers exactly the host's first label: the
      rest of the pattern must match what follows the host's first dot. */
  lemma StarCoversOneLabel(rest: string, host: string, i: int)
    requires 1 <= i < |host| && host[i] == '.' && DotFree(host[..i])
    ensures WildcardMatch("*." + rest, host) <==> WildcardMatch(rest, host[i + 1..])
  {
    var p := "*." + rest;
    assert p[0] == '*' && p[1..] == "." + rest;
    assert ("." + rest)[0] == '.' && ("." + rest)[1..] == rest;
    assert host[i..][0] == '.' && host[i..][1..] == host[i + 1..];
    if WildcardMatch(p, host) {
      var k :| 1 <= k <= |host| && DotFree(host[..k]) && WildcardMatch("." + rest, host[k..]);
      assert host[k..][0] == host[k];
      if k < i { DotInside(host, k, i); }
      if i < k { DotInside(host, i, k); }
      assert host[k..][1..] == host[k + 1..];
    }
  }

  /** The same, with the host written as its first label, a dot and the rest. */
  lemma StarTakesFirstLabel(rest: string, first: string, tail: string)
    requires first != [] && DotFree(first)
    ensures WildcardMatch("*." + rest, first + "." + tail) <==> WildcardMatch(rest, tail)
  {
    var host := first + "." + tail;
    assert host[..|first|] == first && host[|first|] == '.' && host[|first| + 1..] == tail;
    StarCoversOneLabel(rest, host, |first|);
  }

  // The pairs the connection's tests expect to match.

  lemma WildcardMatchesOneLabel()
    ensures WildcardMatch("*.a.com", "foo.a.com")
  {
    assert "*." + "a.com" == "*.a.com" && "foo" + "." + "a.com" == "foo.a.com";
    LiteralPatternMatchesOnlyItself("a.com", "a.com");
    StarTakesFirstLabel("a.com", "foo", "a.com");
  }

  lemma WildcardMatchesLabelSuffix()
    ensures WildcardMatch("f*.com", "foo.com")
  {
    var p, h := "f*.com", "foo.com";
    assert p[0] == 'f' && p[1..] == "*." + "com";
    assert h[0] == 'f' && h[1..] == "oo" + "." + "com";
    LiteralPatternMatchesOnlyItself("com", "com");
    StarTakesFirstLabel("com", "oo", "com");
  }

  lemma WildcardMatchesTwoLabels(first: string, second: string, rest: string)
    requires first != [] && DotFree(first) && second != [] && DotFree(second)
    requires !IsWildcardName(rest)
    ensures WildcardMatch("*.*." + rest, first + "." + second + "." + rest)
  {
    assert "*." + ("*." + rest) == "*.*." + rest;
    assert first + "." + (second + "." + rest) == first + "." + second + "." + rest;
    LiteralPatternMatchesOnlyItself(rest, rest);
    StarTakesFirstLabel(rest, second, rest);
    StarTakesFirstLabel("*." + rest, first, second + "." + rest);
  }

  lemma WildcardTwoLabelExample()
    ensures WildcardMatch("*.*.foo.com", "a.b.foo.com")
  {
    WildcardMatchesTwoLabels("a", "b", "foo.com");
    assert "*.*." + "foo.com" == "*.*.foo.com";
    assert "a" + "." + "b" + "." + "foo.com" == "a.b.foo.com";
  }

  lemma WildcardEqualLabelsExample()
    ensures WildcardMatch("*.*.foo.com", "a.a.foo.com")
  {
    WildcardMatchesTwoLabels("a", "a", "foo.com");
    assert "*.*." + "foo.com" == "*.*.foo.com";
    assert "a" + "." + "a" + "." + "foo.com" == "a.a.foo.com";
  }

  lemma WildcardRepeatedLabelExample()
    ensures WildcardMatch("*.*.foo.com", "bar.foo.foo.com")
  {
    WildcardMatchesTwoLabels("bar", "foo", "foo.com");
    assert "*.*." + "foo.com" == "*.*.foo.com";
    assert "bar" + "." + "foo" + "." + "foo.com" == "bar.foo.foo.com";
  }

  // The pairs the connection's tests expect not to match.

  /** `*` does not reach over a dot into a second label. */
  lemma WildcardStopsAtDot()
    ensures !WildcardMatch("*.a.com", "bar.foo.a.com")
  {
    var h := "bar.foo.a.com";
    assert "*.a.com" == "*." + "a.com" && h[4..] == "foo.a.com";
    LiteralPatternMatchesOnlyItself("a.com", "foo.a.com");
    StarCoversOneLabel("a.com", h, 3);
  }

  lemma WildcardKeepsLiteralPrefix()
    ensures !WildcardMatch("f*.com", "bar.com")
    ensures !WildcardMatch("f*.com", "barfoo.com")
  {
    assert "f*.com"[0] == 'f' && "bar.com"[0] == 'b' && "barfoo.com"[0] == 'b';
  }

  lemma WildcardNeedsEveryLabel()
    ensures !WildcardMatch("*.*.foo.com", "foo.com")
    ensures !WildcardMatch("*.*.foo.com", ".foo.com")
  {
    if WildcardMatch("*.*.foo.com", "foo.com") { WildcardFragmentsNonEmpty("*.*.foo.com", "foo.com"); }
    if WildcardMatch("*.*.foo.com", ".foo.com") { WildcardFragmentsNonEmpty("*.*.foo.com", ".foo.com"); }
  }

  /** A host with more or fewer labels than the pattern never matches. */
  lemma LabelCountsDiffer(pattern: string, host: string)
    requires CountChar(host, '.') != CountChar(pattern, '.')
    ensures !WildcardMatch(pattern, host)
  {
    if WildcardMatch(pattern, host) {
      WildcardKeepsLabels(pattern, host);
    }
  }

  /** Two stars need two labels in front of the rest: one is not enough. */
  lemma OneStarTooMany(first: string, rest: string)
    requires DotFree(first)
    ensures !WildcardMatch("*.*." + rest, first + "." + rest)
  {
    CountCharConcat("*.*.", rest, '.');
    CountCharConcat(first + ".", rest, '.');
    CountCharConcat(first, ".", '.');
    CountCharAbsent(first, '.');
    assert CountChar("*.*.", '.') == 2 && CountChar(".", '.') == 1;
    LabelCountsDiffer("*.*." + rest, first + "." + rest);
  }

  lemma WildcardNeedsTwoFragments()
    ensures !WildcardMatch("*.*.foo.com", "bar.foo.com")
  {
    OneStarTooMany("bar", "foo.com");
    assert "*.*." + "foo.com" == "*.*.foo.com";
    assert "bar" + "." + "foo.com" == "bar.foo.com";
  }

  lemma WildcardNeedsNonEmptyFragment()
    ensures !WildcardMatch("*.*.foo.com", ".bar.foo.com")
  {
    var h := ".bar.foo.com";
    assert forall k :: 1 <= k <= |h| ==> !DotFree(h[..k]) by {
      forall k | 1 <= k <= |h| ensures !DotFree(h[..k]) { assert h[..k][0] == '.'; }
    }
  }
}
