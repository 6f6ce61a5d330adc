/** Tokens: `create_jwt` and `verify_jwt`, with JSON and HMAC as parameters. */
module Token {
  import opened Options
  import opened Text
  import opened Base64Url

  datatype Role = Customer | Advisor | Operator

  datatype Payload = Payload(sub: string, role: string, customer: Option<string>, iat: int, exp: int)

  datatype Principal = Principal(subject: string, role: Role, customer: Option<string>)

  datatype Verdict = Accepted(principal: Principal) | Unauthorized

  /** The fixed header's bytes, compact JSON in UTF-8, and the keyed digest. */
  datatype Primitives = Primitives(
    header: seq<Byte>,
    toJson: Payload -> seq<Byte>,
    fromJson: seq<Byte> -> Option<Payload>,
    mac: (string, string) -> seq<Byte>)

  ghost predicate JsonReadsBack(p: Primitives) {
    forall load :: p.fromJson(p.toJson(load)) == Some(load)
  }

  function RoleName(role: Role): string {
    match role
    case Customer => "customer"
    case Advisor => "advisor"
    case Operator => "operator"
  }

  function RoleOf(name: string): Option<Role> {
    if name == "customer" then Some(Customer)
    else if name == "advisor" then Some(Advisor)
    else if name == "operator" then Some(Operator)
    else None
  }

  function CreateJwt(p: Primitives, secret: string, subject: string, role: Role, customer: Option<string>,
                     lifetime: int, now: int): string
  {
    var load := Payload(subject, RoleName(role), customer, now, now + lifetime);
    var signing := ToText(p.header) + "." + ToText(p.toJson(load));
    signing + "." + ToText(p.mac(secret, signing))
  }

  function VerifyJwt(p: Primitives, secret: string, token: string, now: int): Verdict {
    var parts := Split(token, ".");
    if |parts| != 3 then Unauthorized
    else
      var signing := parts[0] + "." + parts[1];
      if ToText(p.mac(secret, signing)) != parts[2] then Unauthorized
      else
        match FromText(parts[1])
        case None => Unauthorized
        case Some(bytes) =>
          match p.fromJson(bytes)
          case None => Unauthorized
          case Some(load) =>
            if load.exp < now then Unauthorized
            else
              match RoleOf(load.role)
              case None => Unauthorized
              case Some(role) => Accepted(Principal(load.sub, role, load.customer))
  }

  lemma NoDotNoSplit(s: string)
    requires NoDot(s)
    ensures Split(s, ".") == [s]
  {
    forall i | 0 <= i < |s| ensures !At(s, i, ".") {
      assert s[i..i + 1][0] == s[i];
    }
  }

  lemma DotSplits(a: string, rest: string)
    requires NoDot(a)
    ensures Split(a + "." + rest, ".") == [a] + Split(rest, ".")
  {
    var s := a + "." + rest;
    assert s[|a|..|a| + 1] == ".";
    forall i | 0 <= i < |a| ensures !At(s, i, ".") {
      assert s[i..i + 1][0] == a[i];
    }
    assert At(s, |a|, ".");
    SplitFirst(a, ".", rest);
  }

  lemma ThreeParts(a: string, b: string, c: string)
    requires NoDot(a) && NoDot(b) && NoDot(c)
    ensures Split(a + "." + b + "." + c, ".") == [a, b, c]
  {
    hide Split, NoDot;
    assert a + "." + b + "." + c == a + "." + (b + "." + c);
    DotSplits(a, b + "." + c);
    DotSplits(b, c);
    NoDotNoSplit(c);
  }

  /**
   * A created token gives back subject, role and customer up to and including the second in
   * which it expires, and is refused from the next second on.
   */
  lemma JwtRoundTrip(p: Primitives, secret: string, subject: string, role: Role, customer: Option<string>,
                     lifetime: int, issued: int, now: int)
    requires JsonReadsBack(p)
    ensures VerifyJwt(p, secret, CreateJwt(p, secret, subject, role, customer, lifetime, issued), now)
            == if now <= issued + lifetime then Accepted(Principal(subject, role, customer)) else Unauthorized
  {
    var load := Payload(subject, RoleName(role), customer, issued, issued + lifetime);
    var a, b := ToText(p.header), ToText(p.toJson(load));
    var c := ToText(p.mac(secret, a + "." + b));
    TextRoundTrip(p.header);
    TextRoundTrip(p.toJson(load));
    TextRoundTrip(p.mac(secret, a + "." + b));
    ThreeParts(a, b, c);
  }

  /** What a created token carries, part by part. */
  lemma TokenCarries(p: Primitives, secret: string, subject: string, role: Role, customer: Option<string>,
                     lifetime: int, issued: int)
    ensures var parts := Split(CreateJwt(p, secret, subject, role, customer, lifetime, issued), ".");
            var name := if role == Customer then "customer" else if role == Advisor then "advisor" else "operator";
            && |parts| == 3
            && FromText(parts[0]) == Some(p.header)
            && FromText(parts[1]) == Some(p.toJson(Payload(subject, name, customer, issued, issued + lifetime)))
            && FromText(parts[2]) == Some(p.mac(secret, parts[0] + "." + parts[1]))
  {
    hide Split, FromText, ToText, NoDot;
    var load := Payload(subject, RoleName(role), customer, issued, issued + lifetime);
    var a, b := ToText(p.header), ToText(p.toJson(load));
    var c := ToText(p.mac(secret, a + "." + b));
    TextRoundTrip(p.header);
    TextRoundTrip(p.toJson(load));
    TextRoundTrip(p.mac(secret, a + "." + b));
    ThreeParts(a, b, c);
  }

  /**
   * What acceptance means: the whole text is a signing input followed by a dot and the base64url
   * text of exactly that input's digest under the server's secret.
   */
  lemma AcceptedIsSigned(p: Primitives, secret: string, token: string, now: int)
    requires VerifyJwt(p, secret, token, now).Accepted?
    ensures var parts := Split(token, ".");
            && |parts| == 3
            && var signing := parts[0] + "." + parts[1];
               token == signing + "." + ToText(p.mac(secret, signing))
  {
    SplitJoins(token);
    TwoOfThree(Split(token, "."));
  }

  lemma TwoOfThree(parts: seq<string>)
    requires |parts| == 3
    ensures Join(parts, ".") == parts[0] + "." + parts[1] + "." + parts[2]
  {
    assert parts[1..] == [parts[1], parts[2]] && parts[1..][1..] == [parts[2]];
    assert Join(parts[1..], ".") == parts[1] + "." + parts[2];
    assert parts[0] + "." + (parts[1] + "." + parts[2]) == parts[0] + "." + parts[1] + "." + parts[2];
  }

  lemma {:induction false} SplitJoins(s: string)
    ensures Join(Split(s, "."), ".") == s
    decreases |s|
  {
    var k := Find(s, ".");
    if k < |s| {
      SplitJoins(s[k + 1..]);
      var rest := Split(s[k + 1..], ".");
      assert ([s[..k]] + rest)[1..] == rest;
      assert s == s[..k] + "." + s[k + 1..];
    }
  }
}
