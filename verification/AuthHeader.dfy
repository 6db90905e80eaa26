/** The authorization header: printed by the sender, taken apart and verified by the receiver.
    Hashing and signing are parameters, assumed only to fit together. */
module AuthHeader {
  import opened Decimal
  import Base64
  import opened Wrappers

  const TTL_SECONDS := 3600

  type Bytes = seq<Base64.Byte>

  /** The primitives of the crypto library. */
  datatype Crypto = Crypto(hash: string -> Bytes, publicOf: Bytes -> Bytes,
                           sign: (Bytes, string) -> Bytes, verify: (Bytes, string, Bytes) -> bool)
  {
    /** A signature made with a seed verifies under the seed's public key, which has 32 bytes; no signature is empty. */
    ghost predicate Sound() {
      && (forall seed: Bytes, msg: string :: verify(publicOf(seed), msg, sign(seed, msg)))
      && (forall seed: Bytes, msg: string :: sign(seed, msg) != [])
      && (forall seed: Bytes {:trigger publicOf(seed)} :: |publicOf(seed)| == 32)
    }
  }

  datatype Error =
    | BadPrivateKey
    | KeyLength
    | PublicKeyLength
    | MissingFields
    | BadCreated
    | BadExpires
    | NotYetValid
    | Expired
    | BadSignatureEncoding
    | SignatureMismatch

  // ---------------------------------------------------------------- printing

  /** The seed inside a private key: 32 bytes, or the first half of 64. */
  function SeedOf(privateKey: string): Result<Bytes, Error> {
    match Base64.Decode(privateKey)
    case None => Err(BadPrivateKey)
    case Some(k) => if |k| == 64 then Ok(k[..32]) else if |k| == 32 then Ok(k) else Err(KeyLength)
  }

  function SigningString(cr: Crypto, created: string, expires: string, payload: string): string {
    "(created): " + created + "\n(expires): " + expires + "\ndigest: BLAKE-512=" + Base64.Encode(cr.hash(payload))
  }

  function KeyID(subscriberID: string, uniqueKeyID: string): string {
    subscriberID + "|" + uniqueKeyID + "|ed25519"
  }

  /** One field of the header. */
  function Quoted(name: string, value: string): string {
    name + "=" + "\"" + value + "\""
  }

  function Parts(fields: seq<(string, string)>): seq<string> {
    if fields == [] then []
    else Parts(fields[..|fields| - 1]) + [Quoted(fields[|fields| - 1].0, fields[|fields| - 1].1)]
  }

  function HeaderFields(keyID: string, created: string, expires: string, signature: string): seq<(string, string)> {
    [("keyId", keyID), ("algorithm", "ed25519"), ("created", created), ("expires", expires),
     ("headers", "(created) (expires) digest"), ("signature", signature)]
  }

  function Print(keyID: string, created: string, expires: string, signature: string): string {
    SCHEME + Join(Parts(HeaderFields(keyID, created, expires, signature)))
  }

  function Join(parts: seq<string>): string {
    if parts == [] then "" else if |parts| == 1 then parts[0]
    else Join(parts[..|parts| - 1]) + "," + parts[|parts| - 1]
  }

  const SCHEME := "Signature "

  function CreateHeader(cr: Crypto, payload: string, privateKey: string, subscriberID: string, uniqueKeyID: string,
                        now: int): Result<string, Error> {
    match SeedOf(privateKey)
    case Err(e) => Err(e)
    case Ok(seed) =>
      var created, expires := Format(now), Format(now + TTL_SECONDS);
      var signature := cr.sign(seed, SigningString(cr, created, expires, payload));
      Ok(Print(KeyID(subscriberID, uniqueKeyID), created, expires, Base64.Encode(signature)))
  }

  // ---------------------------------------------------------------- taking apart

  /** Splitting at commas outside quotes, from a point with `cur` read so far; a final empty part is dropped. */
  function Split(h: string, inQuotes: bool, cur: string): seq<string> {
    if h == "" then (if cur == "" then [] else [cur])
    else if h[0] == '"' then Split(h[1..], !inQuotes, cur + [h[0]])
    else if h[0] == ',' && !inQuotes then [cur] + Split(h[1..], inQuotes, "")
    else Split(h[1..], inQuotes, cur + [h[0]])
  }

  predicate IsSpace(c: char) {
    || c == ' ' || c == '\t' || c == '\n' || c == '\r' || c as int in {0x0b, 0x0c, 0x85, 0xa0}
    || c as int == 0x1680 || 0x2000 <= c as int <= 0x200a || c as int in {0x2028, 0x2029, 0x202f, 0x205f, 0x3000}
  }

  function TrimLeft(s: string, drop: char -> bool): string {
    if s != "" && drop(s[0]) then TrimLeft(s[1..], drop) else s
  }

  function TrimRight(s: string, drop: char -> bool): string {
    if s != "" && drop(s[|s| - 1]) then TrimRight(s[..|s| - 1], drop) else s
  }

  function Trim(s: string, drop: char -> bool): string {
    TrimRight(TrimLeft(s, drop), drop)
  }

  const SPACE := (c: char) => IsSpace(c)
  const QUOTE := (c: char) => c == '"'

  function IndexOf(s: string, c: char): (k: nat)
    ensures k <= |s|
    ensures k < |s| ==> s[k] == c
  {
    if s == "" then 0 else if s[0] == c then 0 else 1 + IndexOf(s[1..], c)
  }

  /** The fields after one more part: `name=value`, quotes trimmed; a part without '=' is skipped. */
  function AddField(fields: map<string, string>, part: string): map<string, string> {
    var p := Trim(part, SPACE);
    var k := IndexOf(p, '=');
    if k == |p| then fields else fields[p[..k] := Trim(p[k + 1..], QUOTE)]
  }

  function FieldsOf(parts: seq<string>): map<string, string> {
    if parts == [] then map[] else AddField(FieldsOf(parts[..|parts| - 1]), parts[|parts| - 1])
  }

  function WithoutScheme(h: string): string {
    if SCHEME <= h then h[|SCHEME|..] else h
  }

  function Get(fields: map<string, string>, name: string): string {
    if name in fields then fields[name] else ""
  }

  datatype Parsed = Parsed(keyID: string, created: string, expires: string, signature: string)

  function Parse(header: string): Result<Parsed, Error> {
    var f := FieldsOf(Split(WithoutScheme(header), false, ""));
    if Get(f, "created") == "" || Get(f, "expires") == "" || Get(f, "signature") == "" then Err(MissingFields)
    else Ok(Parsed(Get(f, "keyId"), Get(f, "created"), Get(f, "expires"), Get(f, "signature")))
  }

  method SplitHeaderParts(header: string) returns (parts: seq<string>)
    ensures parts == Split(header, false, "")
  {
    parts := [];
    var current, inQuotes := "", false;
    for i := 0 to |header|
      invariant parts + Split(header[i..], inQuotes, current) == Split(header, false, "")
    {
      var ch := header[i];
      assert header[i..][0] == ch && header[i..][1..] == header[i + 1..];
      if ch == '"' {
        inQuotes := !inQuotes;
        current := current + [ch];
      } else if ch == ',' && !inQuotes {
        assert parts + ([current] + Split(header[i + 1..], inQuotes, "")) == (parts + [current]) + Split(header[i + 1..], inQuotes, "");
        parts := parts + [current];
        current := "";
      } else {
        current := current + [ch];
      }
    }
    assert header[|header|..] == "";
    if current != "" {
      parts := parts + [current];
    }
  }

  method ParseAuthHeader(header: string) returns (r: Result<Parsed, Error>)
    ensures r == Parse(header)
  {
    var fields: map<string, string> := map[];
    var parts := SplitHeaderParts(WithoutScheme(header));
    for i := 0 to |parts|
      invariant fields == FieldsOf(parts[..i])
    {
      assert parts[..i + 1][..i] == parts[..i];
      var part := Trim(parts[i], SPACE);
      var idx := IndexOf(part, '=');
      if idx == |part| {
        continue;
      }
      fields := fields[part[..idx] := Trim(part[idx + 1..], QUOTE)];
    }
    assert parts[..|parts|] == parts;
    var created, expires, signature := Get(fields, "created"), Get(fields, "expires"), Get(fields, "signature");
    if created == "" || expires == "" || signature == "" {
      return Err(MissingFields);
    }
    return Ok(Parsed(Get(fields, "keyId"), created, expires, signature));
  }

  // ---------------------------------------------------------------- verifying

  datatype Verdict = Valid | Rejected(error: Error)

  function Verify(cr: Crypto, header: string, payload: string, pubKey: Bytes, now: int): Verdict {
    if |pubKey| != 32 then Rejected(PublicKeyLength)
    else
      match Parse(header)
      case Err(e) => Rejected(e)
      case Ok(p) =>
        if ParseInt(p.created).None? then Rejected(BadCreated)
        else if ParseInt(p.expires).None? then Rejected(BadExpires)
        else if ParseInt(p.created).value > now then Rejected(NotYetValid)
        else if now > ParseInt(p.expires).value then Rejected(Expired)
        else
          match Base64.Decode(p.signature)
          case None => Rejected(BadSignatureEncoding)
          case Some(sig) =>
            if cr.verify(pubKey, SigningString(cr, p.created, p.expires, payload), sig) then Valid
            else Rejected(SignatureMismatch)
  }

  /** The parts of a key id between bars; fewer than two parts is no key id. */
  function SplitBar(s: string): (parts: seq<string>)
    ensures parts != []
  {
    var k := IndexOf(s, '|');
    if k == |s| then [s] else [s[..k]] + SplitBar(s[k + 1..])
  }

  function ParseKeyID(keyID: string): Option<(string, string)> {
    var parts := SplitBar(keyID);
    if |parts| < 2 then None else Some((parts[0], parts[1]))
  }

  // ---------------------------------------------------------------- splitting and joining

  function QuotesAfter(h: string, inQuotes: bool): bool {
    if h == "" then inQuotes else QuotesAfter(h[1..], if h[0] == '"' then !inQuotes else inQuotes)
  }

  /** The text ends in a comma that stands outside quotes. */
  predicate EndsInBareComma(h: string, inQuotes: bool) {
    h != "" && h[|h| - 1] == ',' && !QuotesAfter(h[..|h| - 1], inQuotes)
  }

  lemma {:induction false} SplitEmpty(h: string, inQuotes: bool, cur: string)
    ensures Split(h, inQuotes, cur) == [] <==> h == "" && cur == ""
  {
    if h != "" && !(h[0] == ',' && !inQuotes) {
      SplitEmpty(h[1..], if h[0] == '"' then !inQuotes else inQuotes, cur + [h[0]]);
    }
  }

  lemma {:induction false} JoinCons(part: string, parts: seq<string>)
    ensures Join([part] + parts) == if parts == [] then part else part + "," + Join(parts)
  {
    if |parts| > 0 {
      var m := |parts| - 1;
      assert ([part] + parts)[..m + 1] == [part] + parts[..m];
      JoinCons(part, parts[..m]);
      if m > 0 {
        assert part + "," + Join(parts[..m]) + "," + parts[m] == part + "," + Join(parts);
      }
    }
  }

  /** What joining the split parts gives: the text, short of a final unquoted comma. */
  function Rejoined(h: string, inQuotes: bool, cur: string): string {
    if EndsInBareComma(h, inQuotes) then cur + h[..|h| - 1] else cur + h
  }

  lemma RejoinedStep(h: string, inQuotes: bool, cur: string)
    requires h != ""
    ensures var q := if h[0] == '"' then !inQuotes else inQuotes;
            && (|h| > 1 || !EndsInBareComma(h, inQuotes) ==> Rejoined(h, inQuotes, cur) == Rejoined(h[1..], q, cur + [h[0]]))
            && (|h| > 1 && h[0] == ',' ==> Rejoined(h, inQuotes, cur) == cur + "," + Rejoined(h[1..], q, ""))
  {
    BareCommaStep(h, inQuotes);
    assert h == [h[0]] + h[1..];
    if |h| == 1 {
      assert cur + [h[0]] + "" == cur + h;
    } else {
      var t := h[1..];
      assert cur + [h[0]] + t == cur + h && cur + [h[0]] + t[..|t| - 1] == cur + h[..|h| - 1];
      assert "" + t == t && "" + t[..|t| - 1] == t[..|t| - 1];
    }
  }

  lemma {:induction false} JoinSplit(h: string, inQuotes: bool, cur: string)
    ensures Join(Split(h, inQuotes, cur)) == Rejoined(h, inQuotes, cur)
  {
    if h == "" {
      assert cur + h == cur;
    } else {
      RejoinedStep(h, inQuotes, cur);
      BareCommaStep(h, inQuotes);
      var q := if h[0] == '"' then !inQuotes else inQuotes;
      if h[0] == ',' && !inQuotes {
        JoinSplit(h[1..], q, "");
        SplitEmpty(h[1..], q, "");
        JoinCons(cur, Split(h[1..], q, ""));
        if |h| == 1 {
          assert cur + h[..0] == cur;
        }
      } else {
        JoinSplit(h[1..], q, cur + [h[0]]);
      }
    }
  }

  lemma BareCommaStep(h: string, inQuotes: bool)
    requires h != ""
    ensures |h| > 1 ==> EndsInBareComma(h, inQuotes) == EndsInBareComma(h[1..], if h[0] == '"' then !inQuotes else inQuotes)
    ensures |h| > 1 ==> h[..|h| - 1] == [h[0]] + h[1..][..|h| - 2]
    ensures |h| == 1 ==> h[1..] == "" && h[..0] == "" && EndsInBareComma(h, inQuotes) == (h[0] == ',' && !inQuotes)
  {
    if |h| > 1 {
      assert h[..|h| - 1][1..] == h[1..][..|h| - 2];
    }
  }

  /** Joining the split parts restores a header exactly unless it ends in an unquoted comma. */
  lemma JoinRestores(h: string)
    ensures Join(Split(h, false, "")) == h <==> !EndsInBareComma(h, false)
  {
    JoinSplit(h, false, "");
    if EndsInBareComma(h, false) {
      assert |"" + h[..|h| - 1]| == |h| - 1;
    } else {
      assert "" + h == h;
    }
  }

  // ---------------------------------------------------------------- the round trip

  predicate Lacks(s: string, c: char) {
    c !in s
  }

  lemma {:induction false} PlainRun(x: string, rest: string, cur: string)
    requires Lacks(x, '"') && Lacks(x, ',')
    ensures Split(x + rest, false, cur) == Split(rest, false, cur + x)
  {
    if x == "" {
      assert x + rest == rest && cur + x == cur;
    } else {
      assert (x + rest)[0] == x[0] && (x + rest)[1..] == x[1..] + rest;
      PlainRun(x[1..], rest, cur + [x[0]]);
      assert cur + [x[0]] + x[1..] == cur + x;
    }
  }

  lemma {:induction false} QuotedRun(x: string, rest: string, cur: string)
    requires Lacks(x, '"')
    ensures Split(x + rest, true, cur) == Split(rest, true, cur + x)
  {
    if x == "" {
      assert x + rest == rest && cur + x == cur;
    } else {
      assert (x + rest)[0] == x[0] && (x + rest)[1..] == x[1..] + rest;
      QuotedRun(x[1..], rest, cur + [x[0]]);
      assert cur + [x[0]] + x[1..] == cur + x;
    }
  }

  /** A field name as the header uses them: not empty, and without the characters that structure a header. */
  predicate GoodName(name: string) {
    name != "" && Lacks(name, '"') && Lacks(name, ',') && Lacks(name, '=') && !IsSpace(name[0])
  }

  lemma FieldRun(name: string, value: string, rest: string, cur: string)
    requires GoodName(name) && Lacks(value, '"')
    ensures Split(Quoted(name, value) + rest, false, cur) == Split(rest, false, cur + Quoted(name, value))
  {
    var open := name + "=";
    var close := "\"" + rest;
    assert Quoted(name, value) + rest == open + ("\"" + (value + close));
    PlainRun(open, "\"" + (value + close), cur);
    assert ("\"" + (value + close))[1..] == value + close;
    QuotedRun(value, close, cur + open + "\"");
    assert close[1..] == rest;
    assert cur + open + "\"" + value + "\"" == cur + Quoted(name, value);
  }

  predicate GoodFields(fields: seq<(string, string)>) {
    forall i | 0 <= i < |fields| :: GoodName(fields[i].0) && Lacks(fields[i].1, '"')
  }

  lemma OneField(name: string, value: string, rest: string)
    requires GoodName(name) && Lacks(value, '"')
    ensures Split(Quoted(name, value) + ("," + rest), false, "") == [Quoted(name, value)] + Split(rest, false, "")
    ensures Split(Quoted(name, value), false, "") == [Quoted(name, value)]
  {
    var last := Quoted(name, value);
    assert "" + last == last && last + "" == last;
    FieldRun(name, value, "," + rest, "");
    FieldRun(name, value, "", "");
    assert ("," + rest)[1..] == rest;
  }

  lemma JoinLast(fields: seq<(string, string)>)
    requires fields != []
    ensures var m := |fields| - 1;
            var last := Quoted(fields[m].0, fields[m].1);
            && Parts(fields) == Parts(fields[..m]) + [last]
            && Join(Parts(fields)) == if m == 0 then last else Join(Parts(fields[..m])) + "," + last
  {
    var m := |fields| - 1;
    PartsLength(fields);
    PartsLength(fields[..m]);
    assert Parts(fields)[..m] == Parts(fields[..m]);
  }

  /** Printed fields, joined, come apart again, whatever follows the next comma. */
  lemma {:induction false} SplitPartsThen(fields: seq<(string, string)>, rest: string)
    requires GoodFields(fields) && fields != []
    ensures Split(Join(Parts(fields)) + ("," + rest), false, "") == Parts(fields) + Split(rest, false, "")
  {
    var m := |fields| - 1;
    var (name, value) := fields[m];
    var last := Quoted(name, value);
    OneField(name, value, rest);
    JoinLast(fields);
    if m > 0 {
      var head := Join(Parts(fields[..m]));
      SplitPartsThen(fields[..m], last + ("," + rest));
      assert head + "," + last + ("," + rest) == head + ("," + (last + ("," + rest)));
    }
  }

  lemma SplitParts(fields: seq<(string, string)>)
    requires GoodFields(fields) && fields != []
    ensures Split(Join(Parts(fields)), false, "") == Parts(fields)
  {
    var m := |fields| - 1;
    var (name, value) := fields[m];
    var last := Quoted(name, value);
    OneField(name, value, "");
    JoinLast(fields);
    if m > 0 {
      var head := Join(Parts(fields[..m]));
      SplitPartsThen(fields[..m], last);
      assert head + "," + last == head + ("," + last);
    }
  }

  lemma {:induction false} PartsLength(fields: seq<(string, string)>)
    ensures |Parts(fields)| == |fields|
  {
    if fields != [] {
      PartsLength(fields[..|fields| - 1]);
    }
  }

  lemma {:induction false} IndexAt(name: string, c: char, rest: string)
    requires Lacks(name, c)
    ensures IndexOf(name + [c] + rest, c) == |name|
  {
    var s := name + [c] + rest;
    if name != "" {
      assert s[1..] == name[1..] + [c] + rest;
      IndexAt(name[1..], c, rest);
    }
  }

  lemma TrimQuoted(value: string)
    requires Lacks(value, '"')
    ensures Trim("\"" + value + "\"", QUOTE) == value
  {
    var s := "\"" + value + "\"";
    assert s[1..] == value + "\"";
    if value == "" {
      assert s[1..] == "\"" && s[1..][1..] == "";
      assert TrimLeft(s[1..], QUOTE) == "";
    } else {
      assert s[1..][0] == value[0];
      assert TrimLeft(s[1..], QUOTE) == s[1..];
      assert TrimLeft(s, QUOTE) == value + "\"";
      assert (value + "\"")[..|value|] == value;
      assert value[|value| - 1] in value;
      assert TrimRight(value, QUOTE) == value;
    }
  }

  lemma FieldAdds(m: map<string, string>, name: string, value: string)
    requires GoodName(name) && Lacks(value, '"')
    ensures AddField(m, Quoted(name, value)) == m[name := value]
  {
    var p := Quoted(name, value);
    assert p[0] == name[0] && p[|p| - 1] == '"';
    assert Trim(p, SPACE) == p;
    var tail := "\"" + value + "\"";
    assert p == name + ['='] + tail;
    IndexAt(name, '=', tail);
    assert p[..|name|] == name && p[|name| + 1..] == tail;
    TrimQuoted(value);
  }

  /** The value a field list gives a name: its last one. */
  function Lookup(fields: seq<(string, string)>, name: string): string {
    if fields == [] then ""
    else if fields[|fields| - 1].0 == name then fields[|fields| - 1].1
    else Lookup(fields[..|fields| - 1], name)
  }

  lemma {:induction false} FieldsLookup(fields: seq<(string, string)>, name: string)
    requires GoodFields(fields)
    ensures Get(FieldsOf(Parts(fields)), name) == Lookup(fields, name)
  {
    if fields != [] {
      var m := |fields| - 1;
      FieldsLookup(fields[..m], name);
      PartsLength(fields[..m]);
      assert Parts(fields)[..m] == Parts(fields[..m]);
      FieldAdds(FieldsOf(Parts(fields[..m])), fields[m].0, fields[m].1);
    }
  }

  lemma GoodKeyId()
    ensures GoodName("keyId")
  {
  }

  lemma GoodAlgorithm()
    ensures GoodName("algorithm") && Lacks("ed25519", '"')
  {
  }

  lemma GoodCreated()
    ensures GoodName("created")
  {
  }

  lemma GoodExpires()
    ensures GoodName("expires")
  {
  }

  lemma GoodHeaders()
    ensures GoodName("headers")
  {
  }

  lemma GoodHeaderList()
    ensures Lacks("(created) (expires) digest", '"')
  {
  }

  lemma GoodSignature()
    ensures GoodName("signature")
  {
  }

  lemma HeaderFieldsGood(keyID: string, created: string, expires: string, signature: string)
    requires Lacks(keyID, '"') && Lacks(created, '"') && Lacks(expires, '"') && Lacks(signature, '"')
    ensures GoodFields(HeaderFields(keyID, created, expires, signature))
  {
    GoodKeyId();
    GoodAlgorithm();
    GoodCreated();
    GoodExpires();
    GoodHeaders();
    GoodHeaderList();
    GoodSignature();
  }

  lemma {:induction false} LookupAt(fields: seq<(string, string)>, i: nat)
    requires i < |fields|
    requires forall j | i < j < |fields| :: fields[j].0 != fields[i].0
    ensures Lookup(fields, fields[i].0) == fields[i].1
  {
    if i < |fields| - 1 {
      LookupAt(fields[..|fields| - 1], i);
    }
  }

  lemma NamesDiffer()
    ensures "created" != "expires" && "created" != "headers" && "expires" != "headers"
  {
    assert "created"[0] != "expires"[0] && "created"[0] != "headers"[0] && "expires"[0] != "headers"[0];
  }

  lemma HeaderLookups(keyID: string, created: string, expires: string, signature: string)
    ensures var f := HeaderFields(keyID, created, expires, signature);
            && Lookup(f, "keyId") == keyID && Lookup(f, "created") == created
            && Lookup(f, "expires") == expires && Lookup(f, "signature") == signature
  {
    var f := HeaderFields(keyID, created, expires, signature);
    NamesDiffer();
    LookupAt(f, 0);
    LookupAt(f, 2);
    LookupAt(f, 3);
    LookupAt(f, 5);
  }

  /** Whatever has no quotes comes back from the printed header unchanged. */
  lemma ParsePrinted(keyID: string, created: string, expires: string, signature: string)
    requires Lacks(keyID, '"') && Lacks(created, '"') && Lacks(expires, '"') && Lacks(signature, '"')
    ensures Parse(Print(keyID, created, expires, signature)) ==
            if created == "" || expires == "" || signature == "" then Err(MissingFields)
            else Ok(Parsed(keyID, created, expires, signature))
  {
    var f := HeaderFields(keyID, created, expires, signature);
    HeaderFieldsGood(keyID, created, expires, signature);
    SplitParts(f);
    assert WithoutScheme(Print(keyID, created, expires, signature)) == Join(Parts(f));
    HeaderLookups(keyID, created, expires, signature);
    FieldsLookup(f, "keyId");
    FieldsLookup(f, "created");
    FieldsLookup(f, "expires");
    FieldsLookup(f, "signature");
  }

  lemma FormatLacksQuotes(n: int)
    ensures Lacks(Format(n), '"')
  {
  }

  lemma EncodeLacksQuotes(b: Bytes)
    ensures Lacks(Base64.Encode(b), '"')
  {
  }

  /** A created header parses to exactly the printed key id, times and signature: Base64 padding survives the
      split at the first '='. */
  lemma CreatedHeaderParses(cr: Crypto, payload: string, privateKey: string, sub: string, uk: string, now: int)
    requires cr.Sound() && SeedOf(privateKey).Ok? && Lacks(sub, '"') && Lacks(uk, '"')
    ensures var header := CreateHeader(cr, payload, privateKey, sub, uk, now).value;
            var (created, expires) := (Format(now), Format(now + TTL_SECONDS));
            Parse(header) == Ok(Parsed(KeyID(sub, uk), created, expires,
              Base64.Encode(cr.sign(SeedOf(privateKey).value, SigningString(cr, created, expires, payload)))))
  {
    var created, expires := Format(now), Format(now + TTL_SECONDS);
    var sig := cr.sign(SeedOf(privateKey).value, SigningString(cr, created, expires, payload));
    FormatLacksQuotes(now);
    FormatLacksQuotes(now + TTL_SECONDS);
    EncodeLacksQuotes(sig);
    assert Lacks(KeyID(sub, uk), '"');
    assert sig != [];
    ParsePrinted(KeyID(sub, uk), created, expires, Base64.Encode(sig));
  }

  /** Verifying a created header over the same payload succeeds exactly from its creation to one hour later. */
  lemma ValidityWindow(cr: Crypto, payload: string, privateKey: string, sub: string, uk: string, created: int, now: int)
    requires cr.Sound() && SeedOf(privateKey).Ok? && Lacks(sub, '"') && Lacks(uk, '"')
    requires MIN_INT64 <= created && created + TTL_SECONDS <= MAX_INT64
    ensures var header := CreateHeader(cr, payload, privateKey, sub, uk, created).value;
            Verify(cr, header, payload, cr.publicOf(SeedOf(privateKey).value), now).Valid?
            <==> created <= now <= created + TTL_SECONDS
  {
    CreatedHeaderParses(cr, payload, privateKey, sub, uk, created);
    RoundTrip(created);
    RoundTrip(created + TTL_SECONDS);
    var seed := SeedOf(privateKey).value;
    var signing := SigningString(cr, Format(created), Format(created + TTL_SECONDS), payload);
    Base64.RoundTrip(cr.sign(seed, signing));
    assert cr.verify(cr.publicOf(seed), signing, cr.sign(seed, signing));
    assert |cr.publicOf(seed)| == 32;
  }

  /** What makes a signature binding: it verifies only for the message signed, under the key of its seed. */
  ghost predicate Binding(cr: Crypto) {
    forall key: Bytes, msg: string, seed: Bytes, signed: string ::
      cr.verify(key, msg, cr.sign(seed, signed)) ==> msg == signed && key == cr.publicOf(seed)
  }

  /** Two signing strings are equal exactly when their times and their payloads' hashes are. */
  lemma SigningStringInjective(cr: Crypto, c1: string, e1: string, p: string, c2: string, e2: string, q: string)
    requires Lacks(c1, '\n') && Lacks(e1, '\n') && Lacks(c2, '\n') && Lacks(e2, '\n')
    ensures SigningString(cr, c1, e1, p) == SigningString(cr, c2, e2, q) <==> c1 == c2 && e1 == e2 && cr.hash(p) == cr.hash(q)
  {
    if SigningString(cr, c1, e1, p) == SigningString(cr, c2, e2, q) {
      LineByLine(c1, e1, Base64.Encode(cr.hash(p)), c2, e2, Base64.Encode(cr.hash(q)));
      Base64.RoundTrip(cr.hash(p));
      Base64.RoundTrip(cr.hash(q));
    }
  }

  function Lines(created: string, expires: string, digest: string): string {
    "(created): " + created + "\n(expires): " + expires + "\ndigest: BLAKE-512=" + digest
  }

  lemma LineByLine(c1: string, e1: string, d1: string, c2: string, e2: string, d2: string)
    requires Lacks(c1, '\n') && Lacks(e1, '\n') && Lacks(c2, '\n') && Lacks(e2, '\n')
    requires Lines(c1, e1, d1) == Lines(c2, e2, d2)
    ensures c1 == c2 && e1 == e2 && d1 == d2
  {
    var r1, r2 := "(expires): " + e1 + "\ndigest: BLAKE-512=" + d1, "(expires): " + e2 + "\ndigest: BLAKE-512=" + d2;
    LinesCut(c1, e1, d1);
    LinesCut(c2, e2, d2);
    SameLine("(created): ", c1, r1, c2, r2);
    SameLine("(expires): ", e1, "digest: BLAKE-512=" + d1, e2, "digest: BLAKE-512=" + d2);
    assert d1 == ("digest: BLAKE-512=" + d1)[18..] && d2 == ("digest: BLAKE-512=" + d2)[18..];
  }

  lemma LinesCut(c: string, e: string, d: string)
    ensures var rest := "(expires): " + e + "\ndigest: BLAKE-512=" + d;
            && Lines(c, e, d) == ("(created): " + c) + ['\n'] + rest
            && rest == ("(expires): " + e) + ['\n'] + ("digest: BLAKE-512=" + d)
  {
  }

  lemma TitleLacksNewline(title: string, x: string)
    requires Lacks(title, '\n') && Lacks(x, '\n')
    ensures Lacks(title + x, '\n')
  {
  }

  lemma SameLine(title: string, x1: string, r1: string, x2: string, r2: string)
    requires Lacks(title, '\n') && Lacks(x1, '\n') && Lacks(x2, '\n')
    requires (title + x1) + ['\n'] + r1 == (title + x2) + ['\n'] + r2
    ensures x1 == x2 && r1 == r2
  {
    TitleLacksNewline(title, x1);
    TitleLacksNewline(title, x2);
    IndexAt(title + x1, '\n', r1);
    IndexAt(title + x2, '\n', r2);
    var s := (title + x1) + ['\n'] + r1;
    assert s[..|title + x1|] == title + x1 && s[..|title + x2|] == title + x2;
    assert s[|title + x1| + 1..] == r1 && s[|title + x2| + 1..] == r2;
    assert (title + x1)[|title|..] == x1 && (title + x2)[|title|..] == x2;
  }

  lemma NumbersLackNewlines(s: string)
    requires ParseInt(s).Some?
    ensures Lacks(s, '\n')
  {
    if s[0] == '-' || s[0] == '+' {
      assert AllDigits(s[1..]);
      forall i | 0 <= i < |s| ensures s[i] != '\n' {
        assert i > 0 ==> s[i] == s[1..][i - 1];
      }
    }
  }

  /** The verdict on a created header, over any payload, under any key and at any time: first the key's length, then
      the hour of validity, then the signature, which holds exactly for the payload hash and the key it was made with. */
  lemma VerdictOnCreated(cr: Crypto, payload: string, privateKey: string, sub: string, uk: string, created: int,
                         received: string, key: Bytes, now: int)
    requires cr.Sound() && Binding(cr) && SeedOf(privateKey).Ok? && Lacks(sub, '"') && Lacks(uk, '"')
    requires MIN_INT64 <= created && created + 3600 <= MAX_INT64
    ensures Verify(cr, CreateHeader(cr, payload, privateKey, sub, uk, created).value, received, key, now)
         == if |key| != 32 then Rejected(PublicKeyLength)
            else if now < created then Rejected(NotYetValid)
            else if now > created + 3600 then Rejected(Expired)
            else if cr.hash(payload) == cr.hash(received) && key == cr.publicOf(SeedOf(privateKey).value) then Valid
            else Rejected(SignatureMismatch)
  {
    var seed := SeedOf(privateKey).value;
    var c, e := Format(created), Format(created + 3600);
    var signed, checked := SigningString(cr, c, e, payload), SigningString(cr, c, e, received);
    CreatedHeaderParses(cr, payload, privateKey, sub, uk, created);
    RoundTrip(created);
    RoundTrip(created + 3600);
    Base64.RoundTrip(cr.sign(seed, signed));
    NumbersLackNewlines(c);
    NumbersLackNewlines(e);
    SigningStringInjective(cr, c, e, payload, c, e, received);
    SignatureChecks(cr, key, checked, seed, signed);
  }

  lemma SignatureChecks(cr: Crypto, key: Bytes, checked: string, seed: Bytes, signed: string)
    requires cr.Sound() && Binding(cr)
    ensures cr.verify(key, checked, cr.sign(seed, signed)) <==> checked == signed && key == cr.publicOf(seed)
  {
    assert cr.verify(cr.publicOf(seed), signed, cr.sign(seed, signed));
  }

  /** A signature taken into another header is refused unless that header has the times, the payload hash and the key
      the signature was made for. */
  lemma TransplantRefused(cr: Crypto, header: string, received: string, key: Bytes, now: int,
                          seed: Bytes, created: string, expires: string, payload: string)
    requires cr.Sound() && Binding(cr) && Lacks(created, '\n') && Lacks(expires, '\n')
    requires Parse(header).Ok?
    requires Parse(header).value.signature == Base64.Encode(cr.sign(seed, SigningString(cr, created, expires, payload)))
    ensures Verify(cr, header, received, key, now).Valid? ==>
              var p := Parse(header).value;
              p.created == created && p.expires == expires && cr.hash(received) == cr.hash(payload) && key == cr.publicOf(seed)
  {
    var p, signed := Parse(header).value, SigningString(cr, created, expires, payload);
    Base64.RoundTrip(cr.sign(seed, signed));
    if Verify(cr, header, received, key, now).Valid? {
      NumbersLackNewlines(p.created);
      NumbersLackNewlines(p.expires);
      SigningStringInjective(cr, p.created, p.expires, received, created, expires, payload);
      SignatureChecks(cr, key, SigningString(cr, p.created, p.expires, received), seed, signed);
    }
  }

  /** A private key is its 32-byte seed, alone or followed by 32 more bytes; other lengths are refused. */
  lemma SeedMeaning(seed: Bytes, rest: Bytes)
    requires |seed| == 32
    ensures SeedOf(Base64.Encode(seed + rest)) == if |rest| == 0 || |rest| == 32 then Ok(seed) else Err(KeyLength)
  {
    Base64.RoundTrip(seed + rest);
    assert (seed + rest)[..32] == seed;
    if rest == [] {
      assert seed + rest == seed;
    }
  }

  /** The fixed fields of a printed header, as they are read. */
  lemma PrintedFixedFields(keyID: string, created: string, expires: string, signature: string)
    requires Lacks(keyID, '"') && Lacks(created, '"') && Lacks(expires, '"') && Lacks(signature, '"')
    ensures var fields := FieldsOf(Split(WithoutScheme(Print(keyID, created, expires, signature)), false, ""));
            Get(fields, "algorithm") == "ed25519" && Get(fields, "headers") == "(created) (expires) digest"
  {
    var f := HeaderFields(keyID, created, expires, signature);
    HeaderFieldsGood(keyID, created, expires, signature);
    SplitParts(f);
    assert WithoutScheme(Print(keyID, created, expires, signature)) == Join(Parts(f));
    NamesDiffer();
    assert "algorithm"[0] == 'a' && "signature"[0] == 's';
    LookupAt(f, 1);
    LookupAt(f, 4);
    FieldsLookup(f, "algorithm");
    FieldsLookup(f, "headers");
  }

  /** The text of a printed header, part by part. */
  lemma PrintedText(keyID: string, created: string, expires: string, signature: string)
    ensures Print(keyID, created, expires, signature)
         == "Signature " + Join(["keyId=\"" + keyID + "\"", "algorithm=\"ed25519\"", "created=\"" + created + "\"",
                                 "expires=\"" + expires + "\"", "headers=\"(created) (expires) digest\"", "signature=\"" + signature + "\""])
  {
    var f := HeaderFields(keyID, created, expires, signature);
    PartsAre(f);
    QuotedText(f[0], "keyId=\"");
    QuotedText(f[1], "algorithm=\"");
    QuotedText(f[2], "created=\"");
    QuotedText(f[3], "expires=\"");
    QuotedText(f[4], "headers=\"");
    QuotedText(f[5], "signature=\"");
    assert "algorithm=\"" + "ed25519" + "\"" == "algorithm=\"ed25519\"";
    assert "headers=\"" + "(created) (expires) digest" + "\"" == "headers=\"(created) (expires) digest\"";
    PartsText(f, Parts(f), keyID, created, expires, signature);
  }

  lemma PartsText(f: seq<(string, string)>, ps: seq<string>, keyID: string, created: string, expires: string, signature: string)
    requires |ps| == |f| == 6
    requires ps[0] == "keyId=\"" + keyID + "\"" && ps[1] == "algorithm=\"ed25519\"" && ps[2] == "created=\"" + created + "\""
    requires ps[3] == "expires=\"" + expires + "\"" && ps[4] == "headers=\"(created) (expires) digest\"" && ps[5] == "signature=\"" + signature + "\""
    ensures ps == ["keyId=\"" + keyID + "\"", "algorithm=\"ed25519\"", "created=\"" + created + "\"",
                   "expires=\"" + expires + "\"", "headers=\"(created) (expires) digest\"", "signature=\"" + signature + "\""]
  {
  }

  lemma QuotedText(field: (string, string), opening: string)
    requires opening == field.0 + "=" + "\""
    ensures Quoted(field.0, field.1) == opening + field.1 + "\""
  {
  }

  lemma {:induction false} PartsAre(fields: seq<(string, string)>)
    ensures |Parts(fields)| == |fields| && forall i | 0 <= i < |fields| :: Parts(fields)[i] == Quoted(fields[i].0, fields[i].1)
  {
    if fields != [] {
      PartsAre(fields[..|fields| - 1]);
    }
  }

  /** A header reads the same with and without the name of its scheme. */
  lemma SchemeOptional(h: string)
    requires !("Signature " <= h)
    ensures Parse("Signature " + h) == Parse(h)
  {
    assert ("Signature " + h)[|"Signature "|..] == h;
  }

  /** The key id names the sender: both ids come back exactly when neither contains a bar. */
  lemma KeyIDRoundTrip(sub: string, uk: string)
    ensures ParseKeyID(KeyID(sub, uk)) == Some((sub, uk)) <==> Lacks(sub, '|') && Lacks(uk, '|')
  {
    var s := KeyID(sub, uk);
    var tail := uk + ['|'] + "ed25519";
    assert s == sub + ['|'] + tail;
    HeadLacks(s, '|');
    HeadLacks(tail, '|');
    if Lacks(sub, '|') {
      BarSplits(sub, tail);
      if Lacks(uk, '|') {
        BarSplits(uk, "ed25519");
      }
    }
  }

  /** Any text with a bar is read as a key id, up to its second bar; one without is none. */
  lemma KeyIDMeaning(sub: string, uk: string, rest: string)
    requires Lacks(sub, '|') && Lacks(uk, '|')
    ensures ParseKeyID(sub) == None
    ensures ParseKeyID(sub + ['|'] + uk) == ParseKeyID(sub + ['|'] + (uk + ['|'] + rest)) == Some((sub, uk))
  {
    HeadLacks(sub, '|');
    HeadLacks(uk, '|');
    BarSplits(sub, uk);
    BarSplits(uk, rest);
    BarSplits(sub, uk + ['|'] + rest);
  }

  lemma BarSplits(head: string, tail: string)
    requires Lacks(head, '|')
    ensures SplitBar(head + ['|'] + tail) == [head] + SplitBar(tail)
  {
    IndexAt(head, '|', tail);
    var s := head + ['|'] + tail;
    assert s[..|head|] == head && s[|head| + 1..] == tail;
  }

  /** What stands before the first occurrence of a character lacks it. */
  lemma {:induction false} HeadLacks(s: string, c: char)
    ensures Lacks(s[..IndexOf(s, c)], c)
  {
    if s != "" && s[0] != c {
      HeadLacks(s[1..], c);
      assert s[..IndexOf(s, c)] == [s[0]] + s[1..][..IndexOf(s[1..], c)];
    }
  }
}
