/**
 * sampling/snmptools/main.go: the command-line SNMP tool.  Modelled are
 * the guesses at how an octet string is encoded, the proxy URLs it builds,
 * the aliasing of table names on the command line, and how it reads the
 * values of an answer.  unicode.IsPrint and utf8.DecodeRune are inputs;
 * the HTTP calls, the charset decoders and the printing are not modelled.
 */
module SnmpTools {
  import opened Common

  /** unicode.MaxASCII. */
  const MaxAscii: int := 0x7F
  /** utf8.RuneError, U+FFFD. */
  const RuneError: int := 0xFFFD

  // ---------------------------------------------------------------------
  // Printable-text guesses
  // ---------------------------------------------------------------------

  /** Every byte is below MaxASCII and printable. */
  predicate AsciiPrintable(bs: seq<Byte>, isPrint: int -> bool)
  {
    forall k | 0 <= k < |bs| :: bs[k] < MaxAscii && isPrint(bs[k])
  }

  /** IsAsciiAndPrintable. */
  method IsAsciiAndPrintable(bs: seq<Byte>, isPrint: int -> bool) returns (ok: bool)
    ensures ok == AsciiPrintable(bs, isPrint)
  {
    var i := 0;
    while i < |bs|
      invariant 0 <= i <= |bs|
      invariant forall k | 0 <= k < i :: bs[k] < MaxAscii && isPrint(bs[k])
    {
      if bs[i] >= MaxAscii {
        return false;
      }
      if !isPrint(bs[i]) {
        return false;
      }
      i := i + 1;
    }
    return true;
  }

  /** binary.LittleEndian.Uint16 of the j-th pair of bytes. */
  function Unit16(bs: seq<Byte>, j: int): (r: int)
    requires 0 <= j && 2 * j + 2 <= |bs|
    ensures 0 <= r < 0x10000
  {
    bs[2 * j] + 0x100 * (bs[2 * j + 1] as int)
  }

  /** An even number of bytes, and every little-endian 16-bit unit printable. */
  predicate Utf16Printable(bs: seq<Byte>, isPrint: int -> bool)
  {
    |bs| % 2 == 0 && forall j | 0 <= j < |bs| / 2 :: isPrint(Unit16(bs, j))
  }

  /** IsUtf16AndPrintable. */
  method IsUtf16AndPrintable(bs: seq<Byte>, isPrint: int -> bool) returns (ok: bool)
    ensures ok == Utf16Printable(bs, isPrint)
  {
    if 0 != |bs| % 2 {
      return false;
    }
    var i := 0;
    while i < |bs|
      invariant 0 <= i <= |bs| && i % 2 == 0
      invariant forall j | 0 <= j < i / 2 :: isPrint(Unit16(bs, j))
    {
      var u16 := bs[i] + 0x100 * (bs[i + 1] as int);
      assert u16 == Unit16(bs, i / 2);
      if !isPrint(u16) {
        return false;
      }
      i := i + 2;
    }
    return true;
  }

  /** rune(u) for a uint32 u: the int32 with the same bits. */
  function RuneOf32(u: int): (r: int)
    requires 0 <= u < 0x1_0000_0000
    ensures -0x8000_0000 <= r < 0x8000_0000
    ensures r % 0x1_0000_0000 == u
  {
    if u >= 0x8000_0000 then u - 0x1_0000_0000 else u
  }

  /** binary.LittleEndian.Uint32 of the j-th group of four bytes, as a rune. */
  function Unit32(bs: seq<Byte>, j: int): int
    requires 0 <= j && 4 * j + 4 <= |bs|
  {
    RuneOf32(bs[4 * j] + 0x100 * (bs[4 * j + 1] as int) + 0x1_0000 * (bs[4 * j + 2] as int) + 0x100_0000 * (bs[4 * j + 3] as int))
  }

  /** A multiple of four bytes, and every little-endian 32-bit unit printable. */
  predicate Utf32Printable(bs: seq<Byte>, isPrint: int -> bool)
  {
    |bs| % 4 == 0 && forall j | 0 <= j < |bs| / 4 :: isPrint(Unit32(bs, j))
  }

  /** IsUtf32AndPrintable. */
  method IsUtf32AndPrintable(bs: seq<Byte>, isPrint: int -> bool) returns (ok: bool)
    ensures ok == Utf32Printable(bs, isPrint)
  {
    if 0 != |bs| % 4 {
      return false;
    }
    var i := 0;
    while i < |bs|
      invariant 0 <= i <= |bs| && i % 4 == 0
      invariant forall j | 0 <= j < i / 4 :: isPrint(Unit32(bs, j))
    {
      var u32 := bs[i] + 0x100 * (bs[i + 1] as int) + 0x1_0000 * (bs[i + 2] as int) + 0x100_0000 * (bs[i + 3] as int);
      assert RuneOf32(u32) == Unit32(bs, i / 4);
      if !isPrint(RuneOf32(u32)) {
        return false;
      }
      i := i + 4;
    }
    return true;
  }

  /** What utf8.DecodeRune gives for a non-empty input: a rune and how many bytes it took. */
  datatype Decoded = Decoded(rune: int, size: int)

  /** DecodeRune always consumes at least one byte of a non-empty input and no more than it has. */
  ghost predicate ValidDecoder(decode: seq<Byte> -> Decoded)
  {
    forall bs: seq<Byte> :: |bs| > 0 ==> 1 <= decode(bs).size <= |bs|
  }

  /** The runes of bs, decoded one after another to the end. */
  function Runes(bs: seq<Byte>, decode: seq<Byte> -> Decoded): (r: seq<int>)
    requires ValidDecoder(decode)
    ensures |r| <= |bs|
    ensures |bs| > 0 ==> |r| > 0 && r[0] == decode(bs).rune
    decreases |bs|
  {
    if |bs| == 0 then [] else [decode(bs).rune] + Runes(bs[decode(bs).size..], decode)
  }

  /** The loop of IsUtf8AndPrintable: it stops at the first RuneError or unprintable rune. */
  function Utf8Scan(bs: seq<Byte>, decode: seq<Byte> -> Decoded, isPrint: int -> bool): bool
    requires ValidDecoder(decode)
    decreases |bs|
  {
    if |bs| == 0 then true
    else
      var d := decode(bs);
      if d.rune == RuneError then false
      else if !isPrint(d.rune) then false
      else Utf8Scan(bs[d.size..], decode, isPrint)
  }

  /** No rune is RuneError and every one is printable. */
  predicate PrintableRunes(rs: seq<int>, isPrint: int -> bool)
  {
    forall k | 0 <= k < |rs| :: rs[k] != RuneError && isPrint(rs[k])
  }

  /** The scan succeeds exactly when the decoded runes are all printable and none is RuneError. */
  lemma {:induction false} Utf8ScanAllRunes(bs: seq<Byte>, decode: seq<Byte> -> Decoded, isPrint: int -> bool)
    requires ValidDecoder(decode)
    ensures Utf8Scan(bs, decode, isPrint) <==> PrintableRunes(Runes(bs, decode), isPrint)
    decreases |bs|
  {
    if |bs| > 0 {
      var d := decode(bs);
      var rest := bs[d.size..];
      Utf8ScanAllRunes(rest, decode, isPrint);
      var tail := Runes(rest, decode);
      var rs := Runes(bs, decode);
      assert rs == [d.rune] + tail;
      if d.rune != RuneError && isPrint(d.rune) {
        assert Utf8Scan(bs, decode, isPrint) == Utf8Scan(rest, decode, isPrint);
        if PrintableRunes(tail, isPrint) {
          forall k | 0 <= k < |rs| ensures rs[k] != RuneError && isPrint(rs[k]) {
            if k > 0 {
              assert rs[k] == tail[k - 1];
            }
          }
        }
        if PrintableRunes(rs, isPrint) {
          forall k | 0 <= k < |tail| ensures tail[k] != RuneError && isPrint(tail[k]) {
            assert rs[k + 1] == tail[k];
          }
        }
      }
    }
  }

  /** IsUtf8AndPrintable: bs is re-sliced past each decoded rune. */
  method IsUtf8AndPrintable(bs: seq<Byte>, decode: seq<Byte> -> Decoded, isPrint: int -> bool) returns (ok: bool)
    requires ValidDecoder(decode)
    ensures ok == Utf8Scan(bs, decode, isPrint)
  {
    var rest := bs;
    while 0 != |rest|
      invariant Utf8Scan(bs, decode, isPrint) == Utf8Scan(rest, decode, isPrint)
      decreases |rest|
    {
      var d := decode(rest);
      if RuneError == d.rune {
        return false;
      }
      if !isPrint(d.rune) {
        return false;
      }
      rest := rest[d.size..];
    }
    return true;
  }

  // ---------------------------------------------------------------------
  // Proxy URLs
  // ---------------------------------------------------------------------

  /** The command-line flags the URLs are built from. */
  datatype Flags = Flags(
    proxy: string,
    community: string,
    version: string,
    secretName: string,
    authPass: string,
    privPass: string,
    charset: string,
    columns: string)

  /** The flags' defaults. */
  const DefaultFlags: Flags := Flags("127.0.0.1:7072", "public", "2c", "", "", "", "GB18030", "")

  datatype Version = V2c | V3 | UnknownVersion

  /** How the version flag is read. */
  function VersionOf(v: string): (r: Version)
    ensures r == V2c <==> v in {"2", "2c", "v2", "v2c", "1", "v1"}
    ensures r == V3 <==> v in {"3", "v3"}
  {
    if v in {"2", "2c", "v2", "v2c", "1", "v1"} then V2c
    else if v in {"3", "v3"} then V3
    else UnknownVersion
  }

  datatype Url = Url(url: string) | UrlError(message: string)

  /** strings.Replace(s, ".", "_", -1). */
  function ReplaceDots(s: string): (r: string)
    ensures |r| == |s| && '.' !in r
    ensures forall k | 0 <= k < |s| :: r[k] == (if s[k] == '.' then '_' else s[k])
    decreases |s|
  {
    if s == [] then []
    else [if s[0] == '.' then '_' else s[0]] + ReplaceDots(s[1..])
  }

  /** The query parameters the tool sends; a pass phrase key may carry the "snmp." prefix. */
  datatype Key = OidKey | VersionKey | CommunityKey | SecModelKey | SecNameKey | ColumnsKey | CharsetKey
               | AuthPassKey(snmpPrefix: bool) | PrivPassKey(snmpPrefix: bool)

  function KeyText(k: Key): string
  {
    match k
    case OidKey => "snmp.oid"
    case VersionKey => "snmp.version"
    case CommunityKey => "snmp.read_community"
    case SecModelKey => "snmp.secmodel"
    case SecNameKey => "snmp.secname"
    case ColumnsKey => "snmp.columns"
    case CharsetKey => "charset"
    case AuthPassKey(p) => (if p then "snmp." else "") + "auth_pass"
    case PrivPassKey(p) => (if p then "snmp." else "") + "priv_pass"
  }

  /** A query parameter, written key=value; the parameters of a URL are joined with '&'. */
  datatype Param = Param(key: Key, value: string)

  function Keys(ps: seq<Param>): (r: seq<Key>)
    ensures |r| == |ps| && forall k | 0 <= k < |ps| :: r[k] == ps[k].key
  {
    seq(|ps|, k requires 0 <= k < |ps| => ps[k].key)
  }

  /** "&key=value" for each parameter. */
  function Rest(ps: seq<Param>): string
    decreases |ps|
  {
    if ps == [] then "" else "&" + KeyText(ps[0].key) + "=" + ps[0].value + Rest(ps[1..])
  }

  /** The query string of a non-empty parameter list. */
  function Query(ps: seq<Param>): string
    requires |ps| > 0
  {
    KeyText(ps[0].key) + "=" + ps[0].value + Rest(ps[1..])
  }

  /** The pass phrases of a v3 URL: auth only when given, priv only together with auth. */
  function AuthParams(snmpPrefix: bool, flags: Flags): (r: seq<Param>)
    ensures AuthPassKey(snmpPrefix) in Keys(r) <==> flags.authPass != ""
    ensures PrivPassKey(snmpPrefix) in Keys(r) <==> flags.authPass != "" && flags.privPass != ""
    ensures forall k | 0 <= k < |r| :: r[k].key.AuthPassKey? || r[k].key.PrivPassKey?
  {
    if "" != flags.authPass then
      if "" != flags.privPass then
        var r := [Param(AuthPassKey(snmpPrefix), flags.authPass), Param(PrivPassKey(snmpPrefix), flags.privPass)];
        assert Keys(r) == [AuthPassKey(snmpPrefix), PrivPassKey(snmpPrefix)];
        r
      else
        var r := [Param(AuthPassKey(snmpPrefix), flags.authPass)];
        assert Keys(r) == [AuthPassKey(snmpPrefix)];
        r
    else []
  }

  /** The columns of a table request. */
  function ColumnsParams(flags: Flags, action: string): (r: seq<Param>)
    ensures ColumnsKey in Keys(r) <==> flags.columns != "" && action == "table"
    ensures forall k | 0 <= k < |r| :: r[k] == Param(ColumnsKey, flags.columns)
  {
    if "" != flags.columns && "table" == action then
      var r := [Param(ColumnsKey, flags.columns)];
      assert Keys(r) == [ColumnsKey];
      r
    else []
  }

  /** The parameters createUrl sends, in order. */
  function UrlParams(flags: Flags, action: string, oid: string): (r: seq<Param>)
    requires VersionOf(flags.version) != UnknownVersion
    ensures |r| > 0 && r[0] == Param(OidKey, ReplaceDots(oid))
  {
    if VersionOf(flags.version) == V2c then
      [Param(OidKey, ReplaceDots(oid)), Param(VersionKey, "v2c"), Param(CommunityKey, flags.community)] +
      ColumnsParams(flags, action)
    else
      [Param(OidKey, ReplaceDots(oid)), Param(VersionKey, "3"), Param(SecModelKey, "usm"), Param(SecNameKey, flags.secretName)] +
      ColumnsParams(flags, action) + AuthParams(true, flags)
  }

  /** createUrl: the proxy URL of an SNMP action on an OID, under target. */
  function CreateUrl(flags: Flags, target: string, action: string, oid: string): (r: Url)
    ensures r.UrlError? <==> VersionOf(flags.version) == UnknownVersion
    ensures r.UrlError? ==> r.message == "version is error."
  {
    if VersionOf(flags.version) == UnknownVersion then UrlError("version is error.")
    else Url("http://" + flags.proxy + "/" + target + "/" + action + "?" + Query(UrlParams(flags, action, oid)))
  }

  /** The keys of createUrl's parameters: the fixed ones of the version, then the columns, then the pass phrases. */
  lemma UrlKeys(flags: Flags, action: string, oid: string)
    requires VersionOf(flags.version) != UnknownVersion
    ensures VersionOf(flags.version) == V2c ==>
              Keys(UrlParams(flags, action, oid)) == [OidKey, VersionKey, CommunityKey] + Keys(ColumnsParams(flags, action))
    ensures VersionOf(flags.version) == V3 ==>
              Keys(UrlParams(flags, action, oid)) ==
              [OidKey, VersionKey, SecModelKey, SecNameKey] + Keys(ColumnsParams(flags, action)) + Keys(AuthParams(true, flags))
  {
    var cs := ColumnsParams(flags, action);
    if VersionOf(flags.version) == V2c {
      var fixed := [Param(OidKey, ReplaceDots(oid)), Param(VersionKey, "v2c"), Param(CommunityKey, flags.community)];
      assert Keys(fixed) == [OidKey, VersionKey, CommunityKey];
      assert Keys(fixed + cs) == Keys(fixed) + Keys(cs);
    } else {
      var fixed := [Param(OidKey, ReplaceDots(oid)), Param(VersionKey, "3"), Param(SecModelKey, "usm"),
                    Param(SecNameKey, flags.secretName)];
      var auth := AuthParams(true, flags);
      assert Keys(fixed) == [OidKey, VersionKey, SecModelKey, SecNameKey];
      assert Keys(fixed + cs) == Keys(fixed) + Keys(cs);
      assert Keys(fixed + cs + auth) == Keys(fixed + cs) + Keys(auth);
    }
  }

  /** snmp.columns is sent only for a table request with columns given. */
  lemma CreateUrlColumns(flags: Flags, action: string, oid: string)
    requires VersionOf(flags.version) != UnknownVersion
    ensures ColumnsKey in Keys(UrlParams(flags, action, oid)) <==> flags.columns != "" && action == "table"
  {
    UrlKeys(flags, action, oid);
    var auth := Keys(AuthParams(true, flags));
    assert ColumnsKey !in auth;
  }

  /** The pass phrases: v3 only, auth when given, priv only together with auth; the OID carries no '.'. */
  lemma CreateUrlPassPhrases(flags: Flags, action: string, oid: string)
    requires VersionOf(flags.version) != UnknownVersion
    ensures var ks := Keys(UrlParams(flags, action, oid));
            (AuthPassKey(true) in ks <==> VersionOf(flags.version) == V3 && flags.authPass != "") &&
            (PrivPassKey(true) in ks <==> VersionOf(flags.version) == V3 && flags.authPass != "" && flags.privPass != "")
    ensures '.' !in UrlParams(flags, action, oid)[0].value
  {
    UrlKeys(flags, action, oid);
    var cs := Keys(ColumnsParams(flags, action));
    assert AuthPassKey(true) !in cs && PrivPassKey(true) !in cs;
  }

  /** The parameters metric_createUrl sends; its pass phrases have no "snmp." prefix. */
  function MetricParams(flags: Flags): (r: seq<Param>)
    requires VersionOf(flags.version) != UnknownVersion
    ensures |r| > 0 && r[0].key == VersionKey
  {
    if VersionOf(flags.version) == V2c then
      [Param(VersionKey, "v2c"), Param(CommunityKey, flags.community), Param(CharsetKey, flags.charset)]
    else
      [Param(VersionKey, "3"), Param(SecModelKey, "usm"), Param(SecNameKey, flags.secretName),
       Param(CharsetKey, flags.charset)] + AuthParams(false, flags)
  }

  /** metric_createUrl always names the charset, never columns, and its pass phrases follow the createUrl rule. */
  lemma MetricUrlParams(flags: Flags)
    requires VersionOf(flags.version) != UnknownVersion
    ensures var ks := Keys(MetricParams(flags));
            CharsetKey in ks && ColumnsKey !in ks &&
            (AuthPassKey(false) in ks <==> VersionOf(flags.version) == V3 && flags.authPass != "") &&
            (PrivPassKey(false) in ks <==> VersionOf(flags.version) == V3 && flags.authPass != "" && flags.privPass != "")
  {
    var ps := MetricParams(flags);
    if VersionOf(flags.version) == V2c {
      assert Keys(ps) == [VersionKey, CommunityKey, CharsetKey];
    } else {
      var fixed := [Param(VersionKey, "3"), Param(SecModelKey, "usm"), Param(SecNameKey, flags.secretName),
                    Param(CharsetKey, flags.charset)];
      var auth := AuthParams(false, flags);
      assert Keys(fixed) == [VersionKey, SecModelKey, SecNameKey, CharsetKey];
      assert Keys(ps) == Keys(fixed) + Keys(auth);
      assert ColumnsKey !in Keys(auth);
    }
  }

  /** metric_createUrl: the proxy URL of a metric, named by the OID argument, under target. */
  function MetricUrl(flags: Flags, target: string, metric: string): (r: Url)
    ensures r.UrlError? <==> VersionOf(flags.version) == UnknownVersion
    ensures r.UrlError? ==> r.message == "version is error."
  {
    if VersionOf(flags.version) == UnknownVersion then UrlError("version is error.")
    else Url("http://" + flags.proxy + "/" + target + "/" + metric + "?" + Query(MetricParams(flags)))
  }

  // ---------------------------------------------------------------------
  // The command line
  // ---------------------------------------------------------------------

  const DefaultTarget: string := "127.0.0.1,161"
  const DefaultOid: string := "1.3.6"

  /** The target and starting OID from the arguments; more than two gives the usage text instead. */
  function ParseArgs(args: seq<string>): (r: Option<(string, string)>)
    ensures r.None? <==> |args| > 2
    ensures |args| == 0 ==> r == Some((DefaultTarget, DefaultOid))
    ensures |args| >= 1 && r.Some? ==> r.value.0 == args[0]
    ensures |args| == 1 ==> r.value.1 == DefaultOid
    ensures |args| == 2 ==> r.value.1 == args[1]
  {
    if |args| == 0 then Some((DefaultTarget, DefaultOid))
    else if |args| == 1 then Some((args[0], DefaultOid))
    else if |args| == 2 then Some((args[0], args[1]))
    else None
  }

  datatype Table = Table(name: string, oid: string)

  /** The tables the tool knows by name; their column lists are all empty. */
  const Tables: seq<Table> := [
    Table("system", "1.3.6.1.2.1.1"),
    Table("interface_snmp", "1.3.6.1.2.1.2.2.1"),
    Table("arp_snmp", "1.3.6.1.2.1.4.22.1"),
    Table("ip_snmp", "1.3.6.1.2.1.4.20.1"),
    Table("mac_snmp", "unsupported"),
    Table("route_snmp", "1.3.6.1.2.1.4.21.1"),
    Table("cdp_snmp", "1.3.6.1.4.1.9.9.23.1.2.1.1;4,6,7,12"),
    Table("HuaweiDP", ".1.3.6.1.4.1.2011.6.7.5.6.1"),
    Table("CabletronDP", "1.3.6.1.4.1.52.4.1.2.19.1.3.1")]

  /** The OID of the first table with the name. */
  function FindTable(tables: seq<Table>, name: string): Option<string>
    decreases |tables|
  {
    if tables == [] then None
    else if tables[0].name == name then Some(tables[0].oid)
    else FindTable(tables[1..], name)
  }

  /** FindTable finds nothing exactly when no table has the name, and otherwise the first one's OID. */
  lemma {:induction false} FindTableFirst(tables: seq<Table>, name: string)
    ensures FindTable(tables, name).None? <==> forall k | 0 <= k < |tables| :: tables[k].name != name
    ensures FindTable(tables, name).Some? ==>
              exists k | 0 <= k < |tables| :: tables[k].name == name && FindTable(tables, name).value == tables[k].oid &&
                forall j | 0 <= j < k :: tables[j].name != name
    decreases |tables|
  {
    if tables != [] && tables[0].name != name {
      FindTableFirst(tables[1..], name);
      assert forall k | 1 <= k < |tables| :: tables[k] == tables[1..][k - 1];
      if FindTable(tables, name).Some? {
        var k :| 0 <= k < |tables[1..]| && tables[1..][k].name == name && FindTable(tables, name).value == tables[1..][k].oid &&
                 forall j | 0 <= j < k :: tables[1..][j].name != name;
        assert tables[k + 1].name == name && forall j | 0 <= j < k + 1 :: tables[j].name != name;
      }
    }
  }

  /** The table loop of main, which stops at the first table with the name. */
  method LookupTable(tables: seq<Table>, name: string) returns (oid: Option<string>)
    ensures oid == FindTable(tables, name)
  {
    var i := 0;
    while i < |tables|
      invariant 0 <= i <= |tables|
      invariant FindTable(tables, name) == FindTable(tables[i..], name)
    {
      assert tables[i..][1..] == tables[i + 1..];
      if tables[i].name == name {
        return Some(tables[i].oid);
      }
      i := i + 1;
    }
    return None;
  }

  /** The OID and action main goes on with: a table name becomes its OID and "table"; two system aliases. */
  function Alias(startedOid: string, action: string): (string, string)
  {
    var (oid, act) := match FindTable(Tables, startedOid)
                      case Some(t) => (t, "table")
                      case None => (startedOid, action);
    if oid == "system" then ("1.3.6.1.2.1.1", "table")
    else if oid == "system.descr" || oid == "system.description" then ("1.3.6.1.2.1.1.1.0", "get")
    else (oid, act)
  }

  /** main's table loop and its switch on the starting OID. */
  method ResolveOid(startedOid: string, action: string) returns (oid: string, act: string)
    ensures (oid, act) == Alias(startedOid, action)
  {
    oid, act := startedOid, action;
    var t := LookupTable(Tables, startedOid);
    if t.Some? {
      oid, act := t.value, "table";
    }
    if oid == "system" {
      oid, act := "1.3.6.1.2.1.1", "table";
    } else if oid == "system.descr" || oid == "system.description" {
      oid, act := "1.3.6.1.2.1.1.1.0", "get";
    }
  }

  /** No table's OID is one of the system aliases: each starts with a digit, a dot or 'u', not 's'. */
  lemma TableOidsAreNotAliases()
    ensures forall k | 0 <= k < |Tables| :: Tables[k].oid != "system" && Tables[k].oid != "system.descr" &&
                                            Tables[k].oid != "system.description"
  {
    forall k | 0 <= k < |Tables|
      ensures |Tables[k].oid| > 0 && Tables[k].oid[0] != 's'
    {
    }
  }

  /** A known table name becomes its OID with action "table", whatever the action flag said. */
  lemma AliasTable(name: string, action: string)
    requires FindTable(Tables, name).Some?
    ensures Alias(name, action) == (FindTable(Tables, name).value, "table")
  {
    FindTableFirst(Tables, name);
    TableOidsAreNotAliases();
  }

  /** "system" is the system table. */
  lemma AliasSystem(action: string)
    ensures Alias("system", action) == ("1.3.6.1.2.1.1", "table")
  {
    assert FindTable(Tables, "system") == Some("1.3.6.1.2.1.1");
  }

  /** The system description shortcuts: a get of sysDescr.0. */
  lemma AliasSystemDescr(name: string, action: string)
    requires name == "system.descr" || name == "system.description"
    ensures Alias(name, action) == ("1.3.6.1.2.1.1.1.0", "get")
  {
    NoTableNamedDescr(name);
    FindTableFirst(Tables, name);
  }

  lemma NoTableNamedDescr(name: string)
    requires name == "system.descr" || name == "system.description"
    ensures forall k | 0 <= k < |Tables| :: Tables[k].name != name
  {
    forall k | 0 <= k < |Tables|
      ensures Tables[k].name != name
    {
      assert |Tables[k].name| < 12 || Tables[k].name[6] != name[6];
    }
  }

  /** Anything else is left as it was given. */
  lemma AliasOther(name: string, action: string)
    requires FindTable(Tables, name).None?
    requires name != "system" && name != "system.descr" && name != "system.description"
    ensures Alias(name, action) == (name, action)
  {
  }

  /** What main runs. */
  datatype Run = Walk | Next | Get | TableWalk | UnsupportedAction(message: string) | MetricInvoke(action: string)

  /**
   * main after aliasing: an OID that commons.ConvertToIntList reads as
   * numbers (an input here) picks an SNMP action; anything else is a
   * metric, where "walk" is read as "get".
   */
  function Dispatch(oid: string, action: string, isOidList: bool): (r: Run)
    ensures !isOidList <==> r.MetricInvoke?
    ensures !isOidList ==> r.action == (if action == "walk" then "get" else action)
    ensures isOidList && action !in {"walk", "next", "get", "table"} ==> r == UnsupportedAction("unsupported action - " + action)
  {
    if isOidList then
      if action == "walk" then Walk
      else if action == "next" then Next
      else if action == "get" then Get
      else if action == "table" then TableWalk
      else UnsupportedAction("unsupported action - " + action)
    else MetricInvoke(if action == "walk" then "get" else action)
  }

  // ---------------------------------------------------------------------
  // Reading an answer's values
  // ---------------------------------------------------------------------

  /** The first value, in the given order, that is an error. */
  function FirstErrorValue(order: seq<string>, values: map<string, string>): (r: Option<string>)
    requires forall k | 0 <= k < |order| :: order[k] in values
    ensures r.None? <==> forall k | 0 <= k < |order| :: !HasPrefix(values[order[k]], "[error")
    ensures r.Some? ==> HasPrefix(r.value, "[error") &&
                        exists k | 0 <= k < |order| :: values[order[k]] == r.value &&
                          forall j | 0 <= j < k :: !HasPrefix(values[order[j]], "[error")
    decreases |order|
  {
    if order == [] then None
    else if HasPrefix(values[order[0]], "[error") then Some(values[order[0]])
    else
      var r := FirstErrorValue(order[1..], values);
      assert forall k | 1 <= k < |order| :: order[k] == order[1..][k - 1];
      r
  }

  /** The error an error value stands for: "[error:11]" is the end of the walk. */
  function ValueError(v: string): string
  {
    if !HasPrefix(v, "[error:11]") then "invalid value - " + v else "walk end."
  }

  /** The values in the given order. */
  function ValuesIn(order: seq<string>, values: map<string, string>): (r: seq<string>)
    requires forall k | 0 <= k < |order| :: order[k] in values
    ensures |r| == |order| && forall k | 0 <= k < |order| :: r[k] == values[order[k]]
  {
    seq(|order|, k requires 0 <= k < |order| => values[order[k]])
  }

  /** One more key of the order: an error value ends the search there, any other value is printed. */
  lemma InterpretStep(order: seq<string>, values: map<string, string>, i: int)
    requires forall k | 0 <= k < |order| :: order[k] in values
    requires 0 <= i < |order|
    ensures FirstErrorValue(order[i..], values) ==
            if HasPrefix(values[order[i]], "[error") then Some(values[order[i]]) else FirstErrorValue(order[i + 1..], values)
    ensures ValuesIn(order[..i + 1], values) == ValuesIn(order[..i], values) + [values[order[i]]]
  {
    assert order[i..][1..] == order[i + 1..];
    assert order[i..][0] == order[i];
  }

  /** An order that lists the keys of a map exactly once visits only keys, and visits some key of a non-empty map. */
  lemma OrderCovers(order: seq<string>, values: map<string, string>)
    requires Seq2Set(order) == values.Keys
    ensures forall k | 0 <= k < |order| :: order[k] in values
    ensures |values| == 0 <==> |order| == 0
  {
    assert forall k | 0 <= k < |order| :: order[k] in Seq2Set(order);
    if |order| > 0 {
      assert order[0] in values.Keys;
    }
  }

  /**
   * The end of invoke: an empty answer is an error; otherwise the values
   * are visited in the map's iteration order, which Go leaves unspecified
   * (given here), and the first error value ends it.  Without one, the
   * next OID is the last key visited and every value was printed.
   */
  method InterpretValues(values: map<string, string>, order: seq<string>, body: string)
      returns (nextOid: string, err: Option<string>, printed: seq<string>)
    requires NoDuplicates(order) && Seq2Set(order) == values.Keys
    ensures |values| == 0 ==> err == Some("result is empty.\n" + body) && nextOid == "" && printed == []
    ensures |values| > 0 && FirstErrorValue(order, values).Some? ==>
              err == Some(ValueError(FirstErrorValue(order, values).value)) && nextOid == ""
    ensures |values| > 0 && FirstErrorValue(order, values).None? ==>
              err.None? && nextOid == order[|order| - 1] && printed == ValuesIn(order, values)
  {
    OrderCovers(order, values);
    if 0 == |values| {
      return "", Some("result is empty.\n" + body), [];
    }
    var next := "";
    printed := [];
    var i := 0;
    while i < |order|
      invariant 0 <= i <= |order|
      invariant FirstErrorValue(order, values) == FirstErrorValue(order[i..], values)
      invariant printed == ValuesIn(order[..i], values)
      invariant i > 0 ==> next == order[i - 1]
    {
      InterpretStep(order, values, i);
      var key := order[i];
      var value := values[key];
      if HasPrefix(value, "[error") {
        return "", Some(ValueError(value)), printed;
      }
      next := key;
      printed := printed + [value];
      i := i + 1;
    }
    return next, None, printed;
  }
}
