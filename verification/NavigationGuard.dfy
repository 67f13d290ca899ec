/**
  The navigation guard of a web session: which URLs it admits, and the addresses it pins a host to.  Splitting a URL,
  encoding one label of a host name, resolving a host and the address-class flags are parameters.
 */
module NavigationGuard {
  import opened Common

  // ---------------------------------------------------------------- domains

  predicate EndsWith(s: string, suffix: string) {
    |suffix| <= |s| && s[|s| - |suffix|..] == suffix
  }

  predicate Covers(domain: string, host: string) {
    host == domain || EndsWith(host, "." + domain)
  }

  /** The labels of a domain name. */
  function Labels(s: string): (labels: seq<string>)
    ensures labels != []
  {
    if s == "" then [""]
    else
      var rest := Labels(s[1..]);
      if s[0] == '.' then [""] + rest else [[s[0]] + rest[0]] + rest[1..]
  }

  function JoinLabels(labels: seq<string>): string {
    if labels == [] then "" else if |labels| == 1 then labels[0] else labels[0] + "." + JoinLabels(labels[1..])
  }

  predicate AtOrBelow(host: string, domain: string) {
    |Labels(domain)| <= |Labels(host)| && Labels(host)[|Labels(host)| - |Labels(domain)|..] == Labels(domain)
  }

  function Prepend(c: char, labels: seq<string>): seq<string>
    requires labels != []
  {
    if c == '.' then [""] + labels else [[c] + labels[0]] + labels[1..]
  }

  lemma LabelsCons(c: char, s: string)
    ensures Labels([c] + s) == Prepend(c, Labels(s))
  {
    assert ([c] + s)[1..] == s;
  }

  lemma PrependConcat(c: char, a: seq<string>, b: seq<string>)
    requires a != []
    ensures Prepend(c, a + b) == Prepend(c, a) + b
  {
    assert (a + b)[1..] == a[1..] + b;
  }

  lemma {:induction false} LabelsOfConcat(a: string, b: string)
    ensures Labels(a + "." + b) == Labels(a) + Labels(b)
  {
    if a == "" {
      assert a + "." + b == ['.'] + b;
      LabelsCons('.', b);
    } else {
      var tail := a[1..] + "." + b;
      LabelsOfConcat(a[1..], b);
      assert a + "." + b == [a[0]] + tail;
      assert a == [a[0]] + a[1..];
      LabelsCons(a[0], tail);
      LabelsCons(a[0], a[1..]);
      PrependConcat(a[0], Labels(a[1..]), Labels(b));
    }
  }

  lemma {:induction false} JoinOfLabels(s: string)
    ensures JoinLabels(Labels(s)) == s
  {
    if s == "" {
    } else {
      JoinOfLabels(s[1..]);
      var rest := Labels(s[1..]);
      if s[0] == '.' {
        assert ([""] + rest)[1..] == rest;
        assert "" + "." + s[1..] == s;
      } else {
        var labels := [[s[0]] + rest[0]] + rest[1..];
        assert labels[1..] == rest[1..];
        assert s == [s[0]] + s[1..];
      }
    }
  }

  lemma {:induction false} JoinOfConcat(a: seq<string>, b: seq<string>)
    requires a != [] && b != []
    ensures JoinLabels(a + b) == JoinLabels(a) + "." + JoinLabels(b)
  {
    assert (a + b)[1..] == a[1..] + b;
    if |a| > 1 {
      JoinOfConcat(a[1..], b);
      assert JoinLabels(a + b) == a[0] + "." + (JoinLabels(a[1..]) + "." + JoinLabels(b));
    } else {
      assert a[1..] + b == b;
    }
  }

  lemma CoveredIsBelow(domain: string, host: string)
    requires Covers(domain, host)
    ensures AtOrBelow(host, domain)
  {
    if host != domain {
      var a := host[..|host| - |domain| - 1];
      assert host == a + "." + domain;
      LabelsOfConcat(a, domain);
    }
  }

  lemma BelowIsCovered(domain: string, host: string)
    requires AtOrBelow(host, domain)
    ensures Covers(domain, host)
  {
    var n := |Labels(host)| - |Labels(domain)|;
    JoinOfLabels(host);
    JoinOfLabels(domain);
    if n == 0 {
      assert Labels(host) == Labels(domain);
    } else {
      var a := Labels(host)[..n];
      assert Labels(host) == a + Labels(domain);
      JoinOfConcat(a, Labels(domain));
      assert host == JoinLabels(a) + ("." + domain);
    }
  }

  /** The string test is the label test: a rule covers exactly the domain itself and the names below it. */
  lemma CoversIffAtOrBelow(domain: string, host: string)
    ensures Covers(domain, host) <==> AtOrBelow(host, domain)
  {
    if Covers(domain, host) { CoveredIsBelow(domain, host); }
    if AtOrBelow(host, domain) { BelowIsCovered(domain, host); }
  }

  // ---------------------------------------------------------------- host names

  predicate Ascii(s: string) {
    forall c | c in s :: c as int < 128
  }

  /** The characters the host-name encoding takes for a dot: besides the full stop the ideographic, the fullwidth and
      the halfwidth ideographic one. */
  predicate Dot(c: char) {
    c in {'.', '\U{3002}', '\U{FF0E}', '\U{FF61}'}
  }

  predicate FinalDot(s: string) {
    s != "" && s[|s| - 1] == '.'
  }

  function WithoutFinalDots(s: string): (r: string)
    ensures !FinalDot(r) && |r| <= |s| && r == s[..|r|]
  {
    if FinalDot(s) then WithoutFinalDots(s[..|s| - 1]) else s
  }

  /** What the label encoding (section 4.1 of RFC 3490) promises: a result is never empty, and ASCII. */
  ghost predicate EncodesToAscii(f: string -> Option<string>) {
    forall part: string :: f(part).Some? ==> f(part).value != "" && Ascii(f(part).value)
  }

  function Refuse(part: string): Option<string> {
    None
  }

  type Encoder = f: string -> Option<string> | EncodesToAscii(f) witness Refuse

  /** The labels of a host between dots of any kind. */
  function HostLabels(s: string): (labels: seq<string>)
    ensures labels != []
  {
    if s == "" then [""]
    else
      var before := HostLabels(s[..|s| - 1]);
      var c := s[|s| - 1];
      if Dot(c) then before + [""] else before[..|before| - 1] + [before[|before| - 1] + [c]]
  }

  /** The encoded labels with a full stop between them, or nothing if one cannot be encoded. */
  function EncodeLabels(encode: Encoder, labels: seq<string>): Option<string> {
    if labels == [] then Some("")
    else
      var before := EncodeLabels(encode, labels[..|labels| - 1]);
      var last := encode(labels[|labels| - 1]);
      if before.None? || last.None? then None
      else Some(if before.value == "" then last.value else before.value + "." + last.value)
  }

  /** Labels of an ASCII host: 1 to 63 characters, the last one up to 63. */
  predicate SizedLabels(labels: seq<string>)
    requires labels != []
  {
    (forall i | 0 <= i < |labels| - 1 :: 0 < |labels[i]| < 64) && |labels[|labels| - 1]| < 64
  }

  /** The encoding of a host: an ASCII one stays as it is, any other is encoded label by label, and a final dot of any
      kind becomes a full stop. */
  function Encode(encode: Encoder, s: string): Option<string> {
    if Ascii(s) then if s == "" || SizedLabels(Labels(s)) then Some(s) else None
    else
      var labels := HostLabels(s);
      var n := |labels| - 1;
      if labels[n] != "" then EncodeLabels(encode, labels)
      else
        var text := EncodeLabels(encode, labels[..n]);
        if text.None? then None else Some(text.value + ".")
  }

  /** An ASCII host encodes to itself if each label has 1 to 63 characters, the last one possibly none, and not at all
      otherwise. */
  lemma AsciiHostEncodes(encode: Encoder, s: string)
    requires Ascii(s)
    ensures
      var labels := Labels(s);
      Encode(encode, s) ==
      if s == "" || (|labels[|labels| - 1]| <= 63 && forall i :: 0 <= i < |labels| - 1 ==> 1 <= |labels[i]| <= 63)
      then Some(s) else None
  {
  }

  lemma {:induction false} EncodedLabelsAreAscii(encode: Encoder, labels: seq<string>)
    requires EncodeLabels(encode, labels).Some?
    ensures Ascii(EncodeLabels(encode, labels).value)
    ensures labels != [] ==>
      var text, last := EncodeLabels(encode, labels).value, encode(labels[|labels| - 1]);
      text != "" && last.Some? && last.value != "" && text[|text| - 1] == last.value[|last.value| - 1]
  {
    if labels == [] {
    } else {
      EncodedLabelsAreAscii(encode, labels[..|labels| - 1]);
    }
  }

  /** The encoding gives ASCII, and something for every host. */
  lemma EncodedIsAscii(encode: Encoder, s: string)
    requires Encode(encode, s).Some?
    ensures Ascii(Encode(encode, s).value) && (s != "" ==> Encode(encode, s).value != "")
  {
    var labels := HostLabels(s);
    if !Ascii(s) && EncodeLabels(encode, labels).Some? { EncodedLabelsAreAscii(encode, labels); }
    if !Ascii(s) && EncodeLabels(encode, labels[..|labels| - 1]).Some? {
      EncodedLabelsAreAscii(encode, labels[..|labels| - 1]);
    }
  }

  /** The host ends in a dot that is not a full stop, or its last label is encoded to something that ends in one. */
  predicate EndsInHiddenDot(encode: Encoder, s: string) {
    && s != "" && !Ascii(s)
    && (Dot(s[|s| - 1])
        || var labels := HostLabels(s);
           var last := encode(labels[|labels| - 1]);
           last.Some? && FinalDot(last.value))
  }

  lemma LastLabelEmptyIff(s: string)
    ensures HostLabels(s)[|HostLabels(s)| - 1] == "" <==> s == "" || Dot(s[|s| - 1])
  {
  }

  /** A host without a final full stop gets one by the encoding exactly when it ends in a hidden dot. */
  lemma FinalDotIffHidden(encode: Encoder, s: string)
    requires Encode(encode, s).Some? && !FinalDot(s)
    ensures FinalDot(Encode(encode, s).value) <==> EndsInHiddenDot(encode, s)
  {
    if !Ascii(s) {
      var labels := HostLabels(s);
      LastLabelEmptyIff(s);
      if labels[|labels| - 1] != "" {
        EncodedLabelsAreAscii(encode, labels);
      }
    }
  }

  // ---------------------------------------------------------------- URLs

  /** The compressed text of an address literal. */
  type Literal = s: string | s != "" && Ascii(s) && !FinalDot(s) witness "::"

  /** A URL as the splitter sees it: lower-cased scheme and host, the compressed form if the host without final dots is
      an address literal, and the port if the text gives one (`badPort` when it is out of range). */
  datatype Url = Url(
    scheme: string, credentials: bool, host: string, literal: Option<Literal>, port: Option<nat>, badPort: bool,
    path: string, query: string, fragment: string)

  datatype Normal = Normal(scheme: string, host: string, port: Option<nat>, path: string, query: string)

  datatype Refusal = SchemeRefused | CredentialsRefused | NoHost | BadHost | PortOutOfRange | DomainRefused
    | ResolverFailed | NoAddress | AddressRefused | PrivateRefused | Rebinding

  datatype Result<T> = Success(value: T) | Failure(why: Refusal)

  function DefaultPort(scheme: string): nat {
    if scheme == "https" then 443 else 80
  }

  /** The host under which a URL is judged, resolved and pinned. */
  function HostName(encode: Encoder, u: Url): Option<string> {
    if u.literal.Some? then Some(u.literal.value) else Encode(encode, WithoutFinalDots(u.host))
  }

  /** A web address with a host that can be encoded, without credentials, and with a port in range if it has one. */
  predicate WebAddress(encode: Encoder, u: Url) {
    && (u.scheme == "http" || u.scheme == "https") && !u.credentials && WithoutFinalDots(u.host) != ""
    && (u.literal.Some? || Encode(encode, WithoutFinalDots(u.host)).Some?) && !u.badPort
  }

  function NormalizeUrl(encode: Encoder, u: Url): (result: Result<Normal>)
    ensures result.Success? <==> WebAddress(encode, u)
    ensures result.Success? ==>
      var n := result.value;
      && n.scheme == u.scheme && n.query == u.query && (if u.path == "" then n.path == "/" else n.path == u.path)
      && (if u.literal.Some? then n.host == u.literal.value
          else Some(n.host) == Encode(encode, WithoutFinalDots(u.host)))
      && (n.port.Some? <==> u.port.Some? && u.port.value != 0
                            && !(u.scheme == "https" && u.port.value == 443)
                            && !(u.scheme == "http" && u.port.value == 80))
      && (n.port.Some? ==> n.port == u.port)
    ensures u.scheme !in {"http", "https"} ==> result == Failure(SchemeRefused)
    ensures u.scheme in {"http", "https"} && u.credentials ==> result == Failure(CredentialsRefused)
  {
    if u.scheme !in {"http", "https"} then Failure(SchemeRefused)
    else if u.credentials then Failure(CredentialsRefused)
    else if WithoutFinalDots(u.host) == "" then Failure(NoHost)
    else if HostName(encode, u).None? then Failure(BadHost)
    else if u.badPort then Failure(PortOutOfRange)
    else
      var port := if u.port.Some? && u.port.value != 0 && u.port.value != DefaultPort(u.scheme) then u.port else None;
      Success(Normal(u.scheme, HostName(encode, u).value, port, if u.path == "" then "/" else u.path, u.query))
  }

  // ---------------------------------------------------------------- addresses

  datatype Address = V4(bits: nat) | V6(bits: nat)

  const METADATA: set<Address> := {V4(0xA9FE_A9FE), V4(0x6464_64C8)}

  /** An IPv4-mapped IPv6 address counts as the IPv4 address in its low 32 bits. */
  function Canonical(a: Address): Address {
    if a.V6? && a.bits / 0x1_0000_0000 == 0xFFFF then V4(a.bits % 0x1_0000_0000) else a
  }

  /** The class flags of an address: `special` is loopback, link-local, multicast, unspecified or reserved. */
  datatype Flags = Flags(special: Address -> bool, private: Address -> bool)

  predicate BlockedAddress(f: Flags, a: Address) {
    a in METADATA || f.special(a)
  }

  function CanonicalSet(raw: set<Address>): set<Address> {
    set a | a in raw :: Canonical(a)
  }

  // ---------------------------------------------------------------- the guard

  datatype Rules = Rules(allowed: seq<string>, blocked: seq<string>, allowPrivate: bool, allowSubdomains: bool,
        flags: Flags, encode: Encoder)

  /** The entries of a free-text rule list: stripped and lower-cased by `fold`, blanks dropped, final dots cut off. */
  function Entries(fold: string -> string, raw: seq<string>): (items: seq<string>)
    ensures forall item | item in items :: !FinalDot(item)
  {
    if raw == [] then []
    else
      var item := fold(raw[|raw| - 1]);
      Entries(fold, raw[..|raw| - 1]) + if item == "" then [] else [WithoutFinalDots(item)]
  }

  /** Exactly the entries that are not blank, each cut and folded. */
  lemma {:induction false} EntriesExactly(fold: string -> string, raw: seq<string>, item: string)
    ensures item in Entries(fold, raw) <==>
      exists text :: text in raw && fold(text) != "" && item == WithoutFinalDots(fold(text))
  {
    if raw == [] {
    } else {
      var init, last := raw[..|raw| - 1], raw[|raw| - 1];
      EntriesExactly(fold, init, item);
      assert forall text :: text in raw <==> text in init || text == last;
    }
  }

  function MakeRules(
      fold: string -> string, allowed: seq<string>, blocked: seq<string>, allowPrivate: bool, allowSubdomains: bool,
      flags: Flags, encode: Encoder): Rules {
    Rules(Entries(fold, allowed), Entries(fold, blocked), allowPrivate, allowSubdomains, flags, encode)
  }

  predicate AllowedBy(r: Rules, item: string, host: string) {
    host == item || (r.allowSubdomains && EndsWith(host, "." + item))
  }

  predicate DomainAllowed(r: Rules, host: string) {
    && (forall item | item in r.blocked :: !Covers(item, host))
    && (r.allowed == [] || exists item | item in r.allowed :: AllowedBy(r, item, host))
  }

  type Pins = map<string, set<Address>>

  /** One call: the URL, and what the resolver answers for its host (None when it raises). */
  datatype Call = Call(url: Url, resolved: Option<set<Address>>)

  /** The exact condition of success. */
  predicate Admitted(r: Rules, pins: Pins, c: Call) {
    NormalizeUrl(r.encode, c.url).Success?
    && var host := NormalizeUrl(r.encode, c.url).value.host;
       && DomainAllowed(r, host)
       && c.resolved.Some? && c.resolved.value != {}
       && var addresses := CanonicalSet(c.resolved.value);
          && (forall a | a in addresses :: !BlockedAddress(r.flags, a) && (r.flags.private(a) ==> r.allowPrivate))
          && (host in pins ==> pins[host] == addresses)
  }

  function Step(r: Rules, pins: Pins, c: Call): Pins {
    if Admitted(r, pins, c) then pins[NormalizeUrl(r.encode, c.url).value.host := CanonicalSet(c.resolved.value)]
    else pins
  }

  lemma CanonicalEach(r: Rules, raw: set<Address>)
    ensures (forall a :: a in CanonicalSet(raw) ==>
               !BlockedAddress(r.flags, a) && (r.flags.private(a) ==> r.allowPrivate))
            <==> forall a :: a in raw ==>
                   && Canonical(a) !in METADATA && !r.flags.special(Canonical(a))
                   && (r.flags.private(Canonical(a)) ==> r.allowPrivate)
  {
    forall a | a in raw
      ensures Canonical(a) in CanonicalSet(raw)
    {
    }
  }

  class Guard {
    const rules: Rules
    var resolutions: Pins

    constructor (
        fold: string -> string, allowed: seq<string>, blocked: seq<string>, allowPrivate: bool, allowSubdomains: bool,
        flags: Flags, encode: Encoder)
      ensures rules == MakeRules(fold, allowed, blocked, allowPrivate, allowSubdomains, flags, encode)
      ensures resolutions == map[]
    {
      rules := MakeRules(fold, allowed, blocked, allowPrivate, allowSubdomains, flags, encode);
      resolutions := map[];
    }

    method DomainCheck(host: string) returns (ok: bool)
      ensures ok <==> DomainAllowed(rules, host)
    {
      for i := 0 to |rules.blocked|
        invariant forall item :: item in rules.blocked[..i] ==> !Covers(item, host)
      {
        var item := rules.blocked[i];
        assert rules.blocked[..i + 1] == rules.blocked[..i] + [item];
        if host == item || EndsWith(host, "." + item) {
          assert Covers(item, host);
          return false;
        }
      }
      assert rules.blocked[..|rules.blocked|] == rules.blocked;
      if rules.allowed == [] { return true; }
      for i := 0 to |rules.allowed|
        invariant forall item :: item in rules.allowed[..i] ==> !AllowedBy(rules, item, host)
      {
        var item := rules.allowed[i];
        assert rules.allowed[..i + 1] == rules.allowed[..i] + [item];
        if host == item || (rules.allowSubdomains && EndsWith(host, "." + item)) {
          assert item in rules.allowed && AllowedBy(rules, item, host);
          return true;
        }
      }
      assert rules.allowed[..|rules.allowed|] == rules.allowed;
      return false;
    }

    /** Check the addresses in any order; the first bad one raises. */
    method Canonicalize(addresses: set<Address>) returns (result: Result<set<Address>>)
      ensures result.Success? <==>
        forall a :: a in CanonicalSet(addresses) ==>
          !BlockedAddress(rules.flags, a) && (rules.flags.private(a) ==> rules.allowPrivate)
      ensures result.Success? ==> result.value == CanonicalSet(addresses)
      ensures result.Failure? ==> result.why in {AddressRefused, PrivateRefused}
    {
      var pending := addresses;
      var canonical: set<Address> := {};
      while pending != {}
        invariant pending <= addresses
        invariant canonical == CanonicalSet(addresses - pending)
        invariant forall a :: a in canonical ==>
                    !BlockedAddress(rules.flags, a) && (rules.flags.private(a) ==> rules.allowPrivate)
      {
        var address := PickFrom(pending);
        ghost var before := addresses - pending;
        pending := pending - {address};
        assert addresses - pending == before + {address};
        if address.V6? && address.bits / 0x1_0000_0000 == 0xFFFF {
          assert Canonical(address) in CanonicalSet(addresses);
          address := V4(address.bits % 0x1_0000_0000);
        } else {
          assert Canonical(address) in CanonicalSet(addresses);
        }
        canonical := canonical + {address};
        if address in METADATA || rules.flags.special(address) {
          return Failure(AddressRefused);
        }
        if rules.flags.private(address) && !rules.allowPrivate {
          return Failure(PrivateRefused);
        }
      }
      assert addresses - pending == addresses;
      return Success(canonical);
    }

    method Validate(c: Call) returns (result: Result<(Normal, set<Address>)>)
      modifies this
      ensures resolutions == Step(rules, old(resolutions), c)
      ensures result.Success? <==> Admitted(rules, old(resolutions), c)
      ensures result.Success? <==>
        && WebAddress(rules.encode, c.url) && c.resolved.Some? && c.resolved.value != {}
        && var host := NormalizeUrl(rules.encode, c.url).value.host;
           && DomainAllowed(rules, host)
           && (forall a :: a in c.resolved.value ==>
                 && Canonical(a) !in METADATA && !rules.flags.special(Canonical(a))
                 && (rules.flags.private(Canonical(a)) ==> rules.allowPrivate))
           && (host in old(resolutions) ==> old(resolutions)[host] == CanonicalSet(c.resolved.value))
      ensures result.Success? ==>
        resolutions == old(resolutions)[result.value.0.host := CanonicalSet(c.resolved.value)]
      ensures result.Success? ==>
        result.value == (NormalizeUrl(rules.encode, c.url).value, CanonicalSet(c.resolved.value))
      ensures result.Failure? ==> resolutions == old(resolutions)
      ensures result.Success? ==>
        var n := result.value.0;
        n.scheme in {"http", "https"} && n.host != "" && n.path != "" && n.port != Some(DefaultPort(n.scheme))
      ensures result == Failure(Rebinding) ==>
        NormalizeUrl(rules.encode, c.url).Success? && NormalizeUrl(rules.encode, c.url).value.host in old(resolutions)
    {
      if c.resolved.Some? { CanonicalEach(rules, c.resolved.value); }
      if c.url.literal.None? && Encode(rules.encode, WithoutFinalDots(c.url.host)).Some? {
        EncodedIsAscii(rules.encode, WithoutFinalDots(c.url.host));
      }
      var normalized := NormalizeUrl(rules.encode, c.url);
      if normalized.Failure? { return Failure(normalized.why); }
      var host := normalized.value.host;
      var allowed := DomainCheck(host);
      if !allowed { return Failure(DomainRefused); }
      if c.resolved.None? { return Failure(ResolverFailed); }
      if c.resolved.value == {} { return Failure(NoAddress); }
      var canonical := Canonicalize(c.resolved.value);
      if canonical.Failure? { return Failure(canonical.why); }
      var pinned := canonical.value;
      if host in resolutions && resolutions[host] != pinned {
        return Failure(Rebinding);
      }
      resolutions := resolutions[host := pinned];
      return Success((normalized.value, pinned));
    }
  }

  // ---------------------------------------------------------------- runs

  function Run(r: Rules, calls: seq<Call>): Pins {
    if calls == [] then map[] else Step(r, Run(r, calls[..|calls| - 1]), calls[|calls| - 1])
  }

  /** The k-th call of the run succeeds for this host. */
  predicate SucceedsFor(r: Rules, calls: seq<Call>, k: nat, host: string)
    requires k < |calls|
  {
    Admitted(r, Run(r, calls[..k]), calls[k]) && NormalizeUrl(r.encode, calls[k].url).value.host == host
  }

  /** A pin, once set, is never moved. */
  lemma {:induction false} PinStays(r: Rules, calls: seq<Call>, k: nat, host: string)
    requires k <= |calls| && host in Run(r, calls[..k])
    ensures host in Run(r, calls) && Run(r, calls)[host] == Run(r, calls[..k])[host]
    decreases |calls|
  {
    if k == |calls| {
      assert calls[..k] == calls;
    } else {
      var front := calls[..|calls| - 1];
      assert front[..k] == calls[..k];
      PinStays(r, front, k, host);
    }
  }

  /** Over every sequence of calls all successes for a host return the same address set. */
  lemma SuccessesAgree(r: Rules, calls: seq<Call>, j: nat, k: nat, host: string)
    requires j < k < |calls| && SucceedsFor(r, calls, j, host) && SucceedsFor(r, calls, k, host)
    ensures CanonicalSet(calls[j].resolved.value) == CanonicalSet(calls[k].resolved.value)
  {
    var front := calls[..k];
    assert front[..j] == calls[..j];
    assert front[..j + 1][..j] == calls[..j] && front[..j + 1][j] == calls[j];
    PinStays(r, front, j + 1, host);
  }

  /** A host that ever succeeded never succeeds again with another answer of the resolver. */
  lemma RebindingAlwaysFails(r: Rules, calls: seq<Call>, j: nat, k: nat, host: string)
    requires j < k < |calls| && SucceedsFor(r, calls, j, host)
    requires calls[k].resolved.Some? && CanonicalSet(calls[k].resolved.value) != CanonicalSet(calls[j].resolved.value)
    ensures !SucceedsFor(r, calls, k, host)
  {
    if SucceedsFor(r, calls, k, host) {
      SuccessesAgree(r, calls, j, k, host);
    }
  }

  /** No success returns a forbidden address, not even one written as an IPv4-mapped IPv6 address. */
  lemma NoForbiddenAddress(r: Rules, pins: Pins, c: Call, a: Address)
    requires Admitted(r, pins, c) && a in c.resolved.value
    ensures !BlockedAddress(r.flags, Canonical(a)) && Canonical(a) !in METADATA
    ensures r.flags.private(Canonical(a)) ==> r.allowPrivate
  {
    assert Canonical(a) in CanonicalSet(c.resolved.value);
  }

  /** The mapped form of an IPv4 address is judged as that address, and every other address as itself. */
  lemma MappedAddressIsUnmasked(bits: nat)
    ensures bits < 0x1_0000_0000 ==> Canonical(V6(0xFFFF * 0x1_0000_0000 + bits)) == V4(bits)
    ensures Canonical(V4(bits)) == V4(bits)
    ensures !(0xFFFF * 0x1_0000_0000 <= bits < 0x1_0000 * 0x1_0000_0000) ==> Canonical(V6(bits)) == V6(bits)
  {
  }

  lemma SuffixIsAscii(s: string, suffix: string)
    requires Ascii(s) && EndsWith(s, suffix)
    ensures Ascii(suffix)
  {
    forall c | c in suffix
      ensures c in s
    {
      var i :| 0 <= i < |suffix| && suffix[i] == c;
      assert s[|s| - |suffix| + i] == c;
    }
  }

  lemma CoveringEntry(item: string, host: string)
    requires Covers(item, host) && Ascii(host) && !FinalDot(item)
    ensures Ascii(item) && (item != "" ==> !FinalDot(host))
  {
    if host != item {
      SuffixIsAscii(host, "." + item);
      assert forall c :: c in item ==> c in "." + item;
      if item != "" {
        assert host[|host| - 1] == ("." + item)[|item|];
      }
    }
  }

  predicate BlockedBy(items: seq<string>, host: string) {
    exists item | item in items :: Covers(item, host)
  }

  /** What the block list refuses, for every encoded host: at or below an ASCII entry; if the host ends in a dot
      nothing, unless an entry consists of dots alone. */
  lemma BlockListExactly(items: seq<string>, host: string)
    requires Ascii(host) && host != "" && forall item | item in items :: !FinalDot(item)
    ensures BlockedBy(items, host) <==>
      if FinalDot(host) then "" in items
      else exists item :: item in items && Ascii(item) && AtOrBelow(host, item)
  {
    forall item | item in items
      ensures Covers(item, host) <==> AtOrBelow(host, item)
      ensures Covers(item, host) ==> Ascii(item) && (item != "" ==> !FinalDot(host))
    {
      CoversIffAtOrBelow(item, host);
      if Covers(item, host) { CoveringEntry(item, host); }
    }
    if FinalDot(host) {
      assert EndsWith(host, "." + "");
      assert "" in items ==> Covers("", host);
    }
  }

  /** The domain name a rule entry or a host stands for: encoded, without final dots. */
  function DomainName(encode: Encoder, s: string): Option<string> {
    var text := Encode(encode, s);
    if text.None? then None else Some(WithoutFinalDots(text.value))
  }

  /** A host whose name is at or below the domain a blocked entry names is refused by that entry exactly when the entry
      is spelled in ASCII and the host does not end in a hidden dot. */
  lemma EntryBlocksIff(encode: Encoder, u: Url, entry: string)
    requires NormalizeUrl(encode, u).Success? && entry != "" && !FinalDot(entry)
    requires DomainName(encode, entry).Some?
    requires AtOrBelow(WithoutFinalDots(NormalizeUrl(encode, u).value.host), DomainName(encode, entry).value)
    ensures Covers(entry, NormalizeUrl(encode, u).value.host)
            <==> Ascii(entry) && (u.literal.Some? || !EndsInHiddenDot(encode, WithoutFinalDots(u.host)))
  {
    var host := NormalizeUrl(encode, u).value.host;
    if u.literal.None? {
      EncodedIsAscii(encode, WithoutFinalDots(u.host));
      FinalDotIffHidden(encode, WithoutFinalDots(u.host));
    }
    if Covers(entry, host) {
      CoveringEntry(entry, host);
    } else if Ascii(entry) && !FinalDot(host) {
      CoversIffAtOrBelow(entry, host);
    }
  }

  /** So with ASCII entries and hosts without a hidden dot the block list keeps its promise. */
  lemma BlockedDomainNeverSucceeds(r: Rules, pins: Pins, c: Call, entry: string)
    requires NormalizeUrl(r.encode, c.url).Success?
    requires entry in r.blocked && entry != "" && !FinalDot(entry) && DomainName(r.encode, entry).Some?
    requires AtOrBelow(
      WithoutFinalDots(NormalizeUrl(r.encode, c.url).value.host), DomainName(r.encode, entry).value)
    requires Ascii(entry) && (c.url.literal.Some? || !EndsInHiddenDot(r.encode, WithoutFinalDots(c.url.host)))
    ensures !Admitted(r, pins, c)
  {
    EntryBlocksIff(r.encode, c.url, entry);
  }

  // ---------------------------------------------------------------- names that slip through

  predicate Plain(encode: Encoder, labels: seq<string>) {
    forall part | part in labels :: part != "" && encode(part) == Some(part)
  }

  function JoinAll(labels: seq<string>): string {
    if labels == [] then ""
    else if |labels| == 1 then labels[0]
    else JoinAll(labels[..|labels| - 1]) + "." + labels[|labels| - 1]
  }

  lemma JoinSnoc(front: seq<string>, last: string)
    ensures JoinAll(front + [last]) == if front == [] then last else JoinAll(front) + "." + last
  {
    assert (front + [last])[..|front|] == front;
  }

  lemma Regroup(a: string, b: string, c: string)
    ensures a + (b + c) == a + b + c
  {
  }

  lemma JoinLonger(init: seq<string>, last: string, c: char)
    ensures JoinAll(init + [last + [c]]) == JoinAll(init + [last]) + [c]
  {
    JoinSnoc(init, last);
    JoinSnoc(init, last + [c]);
    Regroup(JoinAll(init) + ".", last, [c]);
  }

  lemma HostLabelsSnoc(front: string, c: char)
    ensures HostLabels(front + [c]) ==
      var before := HostLabels(front);
      if Dot(c) then before + [""] else before[..|before| - 1] + [before[|before| - 1] + [c]]
  {
    assert (front + [c])[..|front|] == front;
  }

  lemma JoinStep(front: string, c: char)
    requires JoinAll(HostLabels(front)) == front && c as int < 128
    ensures JoinAll(HostLabels(front + [c])) == front + [c]
  {
    var before := HostLabels(front);
    HostLabelsSnoc(front, c);
    if Dot(c) {
      JoinSnoc(before, "");
      assert front + "." + "" == front + [c];
    } else {
      var init, last := before[..|before| - 1], before[|before| - 1];
      assert before == init + [last];
      JoinLonger(init, last, c);
    }
  }

  lemma {:induction false} JoinOfHostLabels(s: string)
    requires Ascii(s)
    ensures JoinAll(HostLabels(s)) == s
  {
    if s == "" {
    } else {
      var front, c := s[..|s| - 1], s[|s| - 1];
      assert s == front + [c] && c in s;
      assert forall x :: x in front ==> x in s;
      JoinOfHostLabels(front);
      JoinStep(front, c);
    }
  }

  lemma EncodeSnoc(encode: Encoder, front: seq<string>, last: string)
    ensures EncodeLabels(encode, front + [last]) ==
      var before, code := EncodeLabels(encode, front), encode(last);
      if before.None? || code.None? then None
      else Some(if before.value == "" then code.value else before.value + "." + code.value)
  {
    assert (front + [last])[..|front|] == front;
  }

  lemma {:induction false} EncodedPlain(encode: Encoder, labels: seq<string>)
    requires Plain(encode, labels)
    ensures EncodeLabels(encode, labels) == Some(JoinAll(labels))
    ensures labels != [] ==> JoinAll(labels) != ""
  {
    if labels == [] {
    } else {
      var front, last := labels[..|labels| - 1], labels[|labels| - 1];
      assert labels == front + [last];
      assert last in labels && forall part :: part in front ==> part in labels;
      EncodedPlain(encode, front);
      EncodeSnoc(encode, front, last);
      JoinSnoc(front, last);
    }
  }

  /** An ASCII name with a hidden dot after it is encoded to the name with a full stop after it. */
  lemma EncodedWithHiddenDot(encode: Encoder, name: string, dot: char)
    requires Ascii(name) && Plain(encode, HostLabels(name)) && Dot(dot) && dot != '.'
    ensures Encode(encode, name + [dot]) == Some(name + ".") && WithoutFinalDots(name + [dot]) == name + [dot]
  {
    var host := name + [dot];
    assert host[|host| - 1] == dot && dot in host;
    assert !(dot as int < 128);
    assert host[..|host| - 1] == name;
    var labels := HostLabels(host);
    assert labels == HostLabels(name) + [""];
    assert labels[..|labels| - 1] == HostLabels(name);
    EncodedPlain(encode, HostLabels(name));
    JoinOfHostLabels(name);
  }

  /** A URL with nothing but a scheme and a host. */
  function HostOnly(host: string): Url {
    Url("https", false, host, None, None, false, "", "", "")
  }

  predicate Safe(r: Rules, addresses: set<Address>) {
    forall a | a in CanonicalSet(addresses) :: !BlockedAddress(r.flags, a) && (r.flags.private(a) ==> r.allowPrivate)
  }

  /** The first failing input: a blocked domain with a hidden dot after it.  Without an allow list it is admitted. */
  lemma HiddenDotPassesBlockList(r: Rules, name: string, dot: char, addresses: set<Address>)
    requires name in r.blocked && Ascii(name) && name != "" && Plain(r.encode, HostLabels(name))
    requires Dot(dot) && dot != '.' && r.allowed == [] && "" !in r.blocked
    requires forall item | item in r.blocked :: !FinalDot(item)
    requires addresses != {} && Safe(r, addresses)
    ensures Admitted(r, map[], Call(HostOnly(name + [dot]), Some(addresses)))
    ensures HostName(r.encode, HostOnly(name + [dot])) == Some(name + ".")
  {
    EncodedWithHiddenDot(r.encode, name, dot);
    EncodedIsAscii(r.encode, name + [dot]);
    BlockListExactly(r.blocked, name + ".");
    assert FinalDot(name + ".");
  }

  /** And it has a pin of its own, so that one name can be pinned to two answers. */
  lemma OneNameTwoPins(r: Rules, name: string, dot: char, one: set<Address>, two: set<Address>, calls: seq<Call>)
    requires r.allowed == [] && r.blocked == [] && Dot(dot) && dot != '.'
    requires Ascii(name) && name != "" && !FinalDot(name) && Plain(r.encode, HostLabels(name))
    requires SizedLabels(Labels(name)) && one != {} && two != {} && Safe(r, one) && Safe(r, two)
    requires calls == [Call(HostOnly(name), Some(one)), Call(HostOnly(name + [dot]), Some(two))]
    ensures SucceedsFor(r, calls, 0, name) && SucceedsFor(r, calls, 1, name + ".")
    ensures Run(r, calls) == map[name := CanonicalSet(one), name + "." := CanonicalSet(two)]
  {
    EncodedWithHiddenDot(r.encode, name, dot);
    assert calls[..0] == [] && calls[..1] == [calls[0]] && calls[..1][..0] == [];
    assert Run(r, calls[..1]) == map[name := CanonicalSet(one)];
    assert name != name + ".";
  }

  /** The second failing input: an entry that is not ASCII blocks no host at all, not even its own encoded form, which
      is what a URL with the same text is judged by. */
  lemma NonAsciiEntryBlocksNothing(r: Rules, entry: string, addresses: set<Address>)
    requires !Ascii(entry) && !FinalDot(entry) && Encode(r.encode, entry).Some? && r.blocked == [entry]
    requires r.allowed == [] && addresses != {} && Safe(r, addresses)
    ensures Admitted(r, map[], Call(HostOnly(entry), Some(addresses)))
  {
    var host := Encode(r.encode, entry).value;
    EncodedIsAscii(r.encode, entry);
    assert WithoutFinalDots(entry) == entry;
    if Covers(entry, host) {
      CoveringEntry(entry, host);
    }
  }

  lemma {:induction false} OneLabel(a: string)
    requires forall c :: c in a ==> !Dot(c)
    ensures HostLabels(a) == [a]
  {
    if a == "" {
    } else {
      var front, c := a[..|a| - 1], a[|a| - 1];
      assert a == front + [c] && c in a && forall x :: x in front ==> x in a;
      OneLabel(front);
      HostLabelsSnoc(front, c);
    }
  }

  lemma LongerSecondLabel(a: string, b: string, c: char, host: string)
    requires HostLabels(host) == [a, b] && !Dot(c)
    ensures HostLabels(host + [c]) == [a, b + [c]]
  {
    HostLabelsSnoc(host, c);
    assert [a, b][..1] == [a];
  }

  lemma {:induction false} TwoLabels(a: string, b: string)
    requires (forall c :: c in a ==> !Dot(c)) && forall c :: c in b ==> !Dot(c)
    ensures HostLabels(a + "." + b) == [a, b]
  {
    if b == "" {
      OneLabel(a);
      HostLabelsSnoc(a, '.');
      assert a + "." + b == a + ['.'];
    } else {
      var front, c := b[..|b| - 1], b[|b| - 1];
      assert b == front + [c] && c in b && forall x :: x in front ==> x in b;
      TwoLabels(a, front);
      LongerSecondLabel(a, front, c, a + "." + front);
      Regroup(a + ".", front, [c]);
    }
  }

  lemma EncodedTwo(encode: Encoder, a: string, b: string)
    requires encode(a).Some? && encode(b).Some?
    ensures EncodeLabels(encode, [a, b]) == Some(encode(a).value + "." + encode(b).value)
  {
    EncodeSnoc(encode, [], a);
    EncodeSnoc(encode, [a], b);
    assert [] + [a] == [a] && [a] + [b] == [a, b];
  }

  /** For instance an entry with a u-umlaut, and the host it names. */
  lemma BuecherPassesBlockList(encode: Encoder, first: string)
    requires first == "b\U{FC}cher" && encode(first) == Some("xn--bcher-kva") && encode("de") == Some("de")
    ensures DomainName(encode, first + "." + "de") == Some("xn--bcher-kva" + "." + "de")
    ensures !BlockedBy([first + "." + "de"], "xn--bcher-kva" + "." + "de")
  {
    var entry, host := first + "." + "de", "xn--bcher-kva" + "." + "de";
    assert first[1] == '\U{FC}' && entry[1] in entry;
    TwoLabels(first, "de");
    EncodedTwo(encode, first, "de");
    assert Encode(encode, entry) == Some(host);
    EncodedIsAscii(encode, entry);
    if Covers(entry, host) {
      CoveringEntry(entry, host);
    }
  }

  /** What survives: successes for one name agree as long as neither host ends in a hidden dot. */
  lemma SuccessesOfOneNameAgree(r: Rules, calls: seq<Call>, j: nat, k: nat, a: string, b: string)
    requires j < k < |calls| && SucceedsFor(r, calls, j, a) && SucceedsFor(r, calls, k, b)
    requires WithoutFinalDots(a) == WithoutFinalDots(b)
    requires !EndsInHiddenDot(r.encode, WithoutFinalDots(calls[j].url.host))
    requires !EndsInHiddenDot(r.encode, WithoutFinalDots(calls[k].url.host))
    ensures a == b && CanonicalSet(calls[j].resolved.value) == CanonicalSet(calls[k].resolved.value)
  {
    if calls[j].url.literal.None? { FinalDotIffHidden(r.encode, WithoutFinalDots(calls[j].url.host)); }
    if calls[k].url.literal.None? { FinalDotIffHidden(r.encode, WithoutFinalDots(calls[k].url.host)); }
    SuccessesAgree(r, calls, j, k, a);
  }

  // ---------------------------------------------------------------- what is admitted

  /** With an allow list and subdomains on, exactly the hosts at or below an allowed and no blocked domain pass. */
  lemma AllowListIsByLabels(r: Rules, host: string)
    requires r.allowed != [] && r.allowSubdomains
    ensures DomainAllowed(r, host) <==>
      (exists item :: item in r.allowed && AtOrBelow(host, item))
      && (forall item :: item in r.blocked ==> !AtOrBelow(host, item))
  {
    forall item
      ensures Covers(item, host) <==> AtOrBelow(host, item)
      ensures AllowedBy(r, item, host) <==> AtOrBelow(host, item)
    {
      CoversIffAtOrBelow(item, host);
    }
  }

  /** Everything a run has pinned is safe and belongs to an admitted domain. */
  lemma {:induction false} EveryPinIsSafe(r: Rules, calls: seq<Call>, host: string)
    requires host in Run(r, calls)
    ensures DomainAllowed(r, host) && Run(r, calls)[host] != {}
    ensures forall a :: a in Run(r, calls)[host] ==>
              !BlockedAddress(r.flags, a) && (r.flags.private(a) ==> r.allowPrivate)
  {
    var n := |calls| - 1;
    var c := calls[n];
    var before := Run(r, calls[..n]);
    if Admitted(r, before, c) && NormalizeUrl(r.encode, c.url).value.host == host {
      var a :| a in c.resolved.value;
      assert Canonical(a) in CanonicalSet(c.resolved.value);
    } else {
      EveryPinIsSafe(r, calls[..n], host);
    }
  }
}
