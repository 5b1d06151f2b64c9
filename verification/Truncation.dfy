/** Byte-bounded, character-safe prefixes, and the cut the cache makes at ingest. */
module Truncation {
  import opened Wrappers
  import opened Models

  const BODY_STORE_BYTES: nat := 4096

  /** The length of a character in UTF-8. */
  function Utf8Len(c: char): nat {
    if c < '\U{80}' then 1
    else if c < '\U{800}' then 2
    else if c < '\U{10000}' then 3
    else 4
  }

  /** `str::len`. */
  function Bytes(s: string): nat {
    if s == [] then 0 else Utf8Len(s[0]) + Bytes(s[1..])
  }

  /** The character index at a byte offset, if the offset is a boundary. */
  function BoundaryAt(s: string, offset: nat): Option<nat> {
    if offset == 0 then Some(0)
    else if s == [] || offset < Utf8Len(s[0]) then None
    else
      match BoundaryAt(s[1..], offset - Utf8Len(s[0]))
      case None => None
      case Some(k) => Some(k + 1)
  }

  lemma {:induction false} BytesSplit(s: string, k: nat)
    requires k <= |s|
    ensures Bytes(s) == Bytes(s[..k]) + Bytes(s[k..])
  {
    if k == 0 {
      assert s[..0] == [] && s[0..] == s;
    } else {
      BytesSplit(s[1..], k - 1);
      assert s[..k][1..] == s[1..][..k - 1];
      assert s[1..][k - 1..] == s[k..];
    }
  }

  /** An offset is a boundary exactly when some prefix has that many bytes. */
  lemma {:induction false} BoundaryIsPrefix(s: string, offset: nat)
    ensures BoundaryAt(s, offset).Some? ==>
              BoundaryAt(s, offset).value <= |s| && Bytes(s[..BoundaryAt(s, offset).value]) == offset
    ensures forall k | 0 <= k <= |s| && Bytes(s[..k]) == offset :: BoundaryAt(s, offset) == Some(k)
  {
    if s != [] && offset >= Utf8Len(s[0]) {
      BoundaryIsPrefix(s[1..], offset - Utf8Len(s[0]));
      forall k | 0 < k <= |s|
        ensures s[..k][1..] == s[1..][..k - 1] && s[..k][0] == s[0]
      {
      }
    } else {
      forall k | 0 < k <= |s|
        ensures Bytes(s[..k]) >= Utf8Len(s[0])
      {
        assert s[..k][0] == s[0];
      }
    }
  }

  /** The longest run of whole characters from the front that fits. */
  function LongestPrefix(s: string, max: nat): string {
    if s == [] || Utf8Len(s[0]) > max then []
    else [s[0]] + LongestPrefix(s[1..], max - Utf8Len(s[0]))
  }

  /** It is a prefix, it fits, and no longer prefix does. */
  lemma {:induction false} LongestPrefixIsLongest(s: string, max: nat)
    ensures LongestPrefix(s, max) <= s
    ensures Bytes(LongestPrefix(s, max)) <= max
    ensures forall k | 0 <= k <= |s| && Bytes(s[..k]) <= max :: k <= |LongestPrefix(s, max)|
  {
    if s != [] && Utf8Len(s[0]) <= max {
      LongestPrefixIsLongest(s[1..], max - Utf8Len(s[0]));
      forall k | 0 < k <= |s| && Bytes(s[..k]) <= max
        ensures k <= |LongestPrefix(s, max)|
      {
        assert s[..k][1..] == s[1..][..k - 1] && s[..k][0] == s[0];
      }
    } else if s != [] {
      forall k | 0 < k <= |s|
        ensures Bytes(s[..k]) >= Utf8Len(s[0])
      {
        assert s[..k][0] == s[0];
      }
    }
  }

  method TruncateBytes(s: string, max: nat) returns (text: string, truncated: bool)
    ensures text == LongestPrefix(s, max)
    ensures truncated <==> Bytes(s) > max
  {
    LongestPrefixIsLongest(s, max);
    var n := |LongestPrefix(s, max)|;
    assert s[..n] == LongestPrefix(s, max);
    assert s[..|s|] == s;
    if Bytes(s) <= max {
      return s, false;
    }
    var end := max;
    while end > 0 && BoundaryAt(s, end).None?
      invariant Bytes(s[..n]) <= end <= max
      decreases end
    {
      BoundaryIsPrefix(s, end);
      end := end - 1;
    }
    BoundaryIsPrefix(s, end);
    var k := BoundaryAt(s, end).value;
    assert k <= n;
    BytesSplit(s[..n], k);
    assert s[..n][..k] == s[..k];
    assert s[..n][k..] == [] ;
    return s[..k], true;
  }

  function TruncatedBody(t: Task): Task {
    if t.body.Some? && Bytes(t.body.value.content) > BODY_STORE_BYTES then
      t.(body := Some(t.body.value.(content := LongestPrefix(t.body.value.content, BODY_STORE_BYTES))),
         bodyBytesTotal := Some(Bytes(t.body.value.content)))
    else t
  }

  function Truncated(tasks: seq<Task>): (out: seq<Task>)
    ensures |out| == |tasks|
    ensures forall i | 0 <= i < |tasks| :: out[i] == TruncatedBody(tasks[i])
  {
    seq(|tasks|, i requires 0 <= i < |tasks| => TruncatedBody(tasks[i]))
  }

  /** Cutting twice changes nothing and never forgets the original byte total. */
  lemma TruncatedTwice(tasks: seq<Task>)
    ensures Truncated(Truncated(tasks)) == Truncated(tasks)
    ensures forall i | 0 <= i < |tasks| ::
              && Truncated(tasks)[i].id == tasks[i].id
              && (Truncated(tasks)[i] != tasks[i] ==>
                    Truncated(tasks)[i].bodyBytesTotal == Some(Bytes(tasks[i].body.value.content)))
  {
    forall i | 0 <= i < |tasks|
      ensures TruncatedBody(TruncatedBody(tasks[i])) == TruncatedBody(tasks[i])
    {
      if tasks[i].body.Some? {
        LongestPrefixIsLongest(tasks[i].body.value.content, BODY_STORE_BYTES);
      }
    }
  }

  method TruncateBodies(tasks: seq<Task>) returns (out: seq<Task>)
    ensures out == Truncated(tasks)
  {
    out := tasks;
    for i := 0 to |tasks|
      invariant |out| == |tasks|
      invariant forall j | 0 <= j < i :: out[j] == TruncatedBody(tasks[j])
      invariant forall j | i <= j < |tasks| :: out[j] == tasks[j]
    {
      if out[i].body.Some? {
        var body := out[i].body.value;
        var total := Bytes(body.content);
        if total > BODY_STORE_BYTES {
          var cut, _ := TruncateBytes(body.content, BODY_STORE_BYTES);
          out := out[i := out[i].(body := Some(body.(content := cut)), bodyBytesTotal := Some(total))];
        }
      }
    }
  }
}
