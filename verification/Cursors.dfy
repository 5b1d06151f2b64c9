/** Search cursors: opaque to their holder, self-describing to the server. */
module Cursors {
  import opened Wrappers
  import Base64

  datatype Json =
    | Null
    | Bool(b: bool)
    | Number(n: int)
    | Fraction(text: string)
    | String(s: string)
    | Array(items: seq<Json>)
    | Object(fields: Args)

  /** The arguments of a search, and any other name. */
  datatype Key =
    | ListKey | QueryKey | StatusKey | DueKey | DueFromKey | DueToKey | ImportanceKey
    | CategoriesKey | SortKey | TimezoneKey | LimitKey | CursorKey | UnknownKey(name: string)

  type Args = map<Key, Json>

  datatype Cursor = Cursor(v: nat, o: nat, a: string, n: nat, q: nat, t: int, g: nat, f: Json)

  datatype Refusal = Mixed | Invalid | Version | Account | Expired | Stale | Arguments

  const CURSOR_TTL_SECONDS := 900
  const PREFIX: string := "c1_"

  /** The JSON form of a cursor, both ways. */
  datatype Codec = Codec(write: Cursor -> seq<Base64.Byte>, read: seq<Base64.Byte> -> Option<Cursor>) {
    ghost predicate Faithful() {
      forall c: Cursor :: read(write(c)) == Some(c)
    }
  }

  function Encode(codec: Codec, c: Cursor): string {
    PREFIX + Base64.Encode(codec.write(c))
  }

  function Decode(codec: Codec, s: string): Option<Cursor> {
    if !(PREFIX <= s) then None
    else
      match Base64.DecodeFrom(s[|PREFIX|..], 0, 0)
      case None => None
      case Some(bytes) => codec.read(bytes)
  }

  lemma CursorRoundTrip(codec: Codec, c: Cursor)
    requires codec.Faithful()
    ensures Decode(codec, Encode(codec, c)) == Some(c)
  {
    Base64.RoundTrip(codec.write(c));
    assert Encode(codec, c)[|PREFIX|..] == Base64.Encode(codec.write(c));
  }

  /** Checks two to seven, in their order. */
  function Validate(codec: Codec, raw: string, mailbox: string, now: int, generation: nat, q: nat)
    : Result<Cursor, Refusal>
  {
    match Decode(codec, raw)
    case None => Err(Invalid)
    case Some(c) =>
      if c.v != 1 then Err(Version)
      else if c.a != mailbox then Err(Account)
      else if now - c.t > CURSOR_TTL_SECONDS then Err(Expired)
      else if c.g != generation then Err(Stale)
      else if c.q != q then Err(Arguments)
      else Ok(c)
  }

  /** A cursor the server issued is accepted exactly by the same account, within
      fifteen minutes, over the same generation and the same filters. */
  lemma IssuedCursorIsAccepted(codec: Codec, c: Cursor, mailbox: string, now: int, generation: nat, q: nat)
    requires codec.Faithful()
    ensures Validate(codec, Encode(codec, c), mailbox, now, generation, q) == Ok(c)
            <==> c.v == 1 && c.a == mailbox && now - c.t <= CURSOR_TTL_SECONDS && c.g == generation && c.q == q
    ensures Validate(codec, Encode(codec, c), mailbox, now, generation, q) != Err(Invalid)
    ensures c.v == 1 && c.a == mailbox && now - c.t <= CURSOR_TTL_SECONDS && c.g != generation
            ==> Validate(codec, Encode(codec, c), mailbox, now, generation, q) == Err(Stale)
  {
    CursorRoundTrip(codec, c);
  }
}
