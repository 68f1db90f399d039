/** The persisted configuration: a list of sync definitions, each naming a source ("pull")
    and a destination ("push") calendar and the width of the sync window in days. */
module Settings {
  import opened Wrappers

  type Nibble = x: int | 0 <= x < 16

  /** A Foundation `UUID`: 128 bits, kept as 32 hexadecimal digits. */
  datatype Uuid = Uuid(nibbles: seq<Nibble>)

  predicate ValidUuid(u: Uuid)
  {
    |u.nibbles| == 32
  }

  /** One sync definition. `eventName` is the generic title given to every mirrored event. */
  datatype SyncSetting = SyncSetting(
    id: Uuid,
    pullCalendarIdentifier: string,
    pullCalendarTitle: string,
    pushCalendarIdentifier: string,
    pushCalendarTitle: string,
    eventName: string,
    numDays: int)

  datatype CalSyncSettings = CalSyncSettings(syncs: seq<SyncSetting>)

  function HexValue(c: char): Option<Nibble>
  {
    if '0' <= c <= '9' then Some(c as int - '0' as int)
    else if 'a' <= c <= 'f' then Some(c as int - 'a' as int + 10)
    else if 'A' <= c <= 'F' then Some(c as int - 'A' as int + 10)
    else None
  }

  /** The upper-case hexadecimal digit of `n`, as `uuidString` writes it. */
  function HexDigit(n: Nibble): (c: char)
    ensures HexValue(c) == Some(n)
  {
    if n < 10 then '0' + n as char else 'A' + (n - 10) as char
  }

  function ParseHex(s: string): (r: Option<seq<Nibble>>)
    ensures r.Some? ==> |r.value| == |s|
  {
    if s == [] then Some([])
    else match (HexValue(s[0]), ParseHex(s[1..]))
      case (Some(d), Some(ds)) => Some([d] + ds)
      case _ => None
  }

  function HexString(ns: seq<Nibble>): (r: string)
    ensures |r| == |ns|
  {
    seq(|ns|, i requires 0 <= i < |ns| => HexDigit(ns[i]))
  }

  lemma {:induction false} ParseHexString(ns: seq<Nibble>)
    ensures ParseHex(HexString(ns)) == Some(ns)
  {
    if ns != [] {
      ParseHexString(ns[1..]);
      assert HexString(ns)[1..] == HexString(ns[1..]);
      assert [ns[0]] + ns[1..] == ns;
    }
  }

  /** `UUID(uuidString:)`: five groups of 8, 4, 4, 4 and 12 hexadecimal digits of either case,
      separated by dashes; anything else is `nil`. */
  function ParseUuid(text: string): (r: Option<Uuid>)
    ensures r.Some? ==> ValidUuid(r.value)
  {
    if |text| != 36 || text[8] != '-' || text[13] != '-' || text[18] != '-' || text[23] != '-' then None
    else match ParseHex(text[0..8] + text[9..13] + text[14..18] + text[19..23] + text[24..36])
      case Some(ns) => Some(Uuid(ns))
      case None => None
  }

  /** `uuidString`, the form `list` prints and `remove` is given back. */
  function FormatUuid(u: Uuid): (r: string)
    requires ValidUuid(u)
    ensures |r| == 36
  {
    var n := u.nibbles;
    HexString(n[0..8]) + "-" + HexString(n[8..12]) + "-" + HexString(n[12..16]) + "-"
      + HexString(n[16..20]) + "-" + HexString(n[20..32])
  }

  /** The identifier a sync is listed under parses back to that sync's identifier. */
  lemma FormatThenParse(u: Uuid)
    requires ValidUuid(u)
    ensures ParseUuid(FormatUuid(u)) == Some(u)
  {
    var n := u.nibbles;
    var t := FormatUuid(u);
    assert t[0..8] == HexString(n[0..8]);
    assert t[9..13] == HexString(n[8..12]);
    assert t[14..18] == HexString(n[12..16]);
    assert t[19..23] == HexString(n[16..20]);
    assert t[24..36] == HexString(n[20..32]);
    assert t[0..8] + t[9..13] + t[14..18] + t[19..23] + t[24..36] == HexString(n);
    ParseHexString(n);
  }
}
