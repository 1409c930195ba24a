/** The text form in which records go to `localStorage` and come back. The
    scripts use `JSON.stringify` and `JSON.parse`; what they depend on is only
    that a record written is read back unchanged and that text that is not a
    record is rejected, so the model uses a small codec with that property:
    a record is a list of text fields, each escaped and terminated by ';'. */
module StorageCodec {
  import opened Common

  /** A field with every '\' and ';' prefixed by '\'. */
  function Escape(f: string): (e: string)
    ensures |e| >= |f|
  {
    if f == [] then []
    else (if f[0] == '\\' || f[0] == ';' then ['\\', f[0]] else [f[0]]) + Escape(f[1..])
  }

  /** The stored text of a record. */
  function Encode(fs: seq<string>): (s: string)
    ensures fs != [] ==> |s| >= |fs|
  {
    if fs == [] then [] else Escape(fs[0]) + ";" + Encode(fs[1..])
  }

  /** Reads the fields of `s`; `cur` is the field read so far and `acc` the
      fields already finished. `None` when the text ends inside a field or
      inside an escape. */
  function DecodeFrom(s: string, cur: string, acc: seq<string>): (r: Option<seq<string>>)
    ensures r.Some? ==> |r.value| >= |acc|
    decreases |s|
  {
    if s == [] then (if cur == [] then Some(acc) else None)
    else if s[0] == '\\' then (if |s| >= 2 then DecodeFrom(s[2..], cur + [s[1]], acc) else None)
    else if s[0] == ';' then DecodeFrom(s[1..], [], acc + [cur])
    else DecodeFrom(s[1..], cur + [s[0]], acc)
  }

  /** `JSON.parse` of stored text: the record, or `None` when it throws. */
  function Decode(s: string): Option<seq<string>> {
    DecodeFrom(s, [], [])
  }

  /** Reading an escaped field and its terminator finishes exactly that field. */
  lemma {:induction false} DecodeEscaped(f: string, rest: string, cur: string, acc: seq<string>)
    ensures DecodeFrom(Escape(f) + ";" + rest, cur, acc) == DecodeFrom(rest, [], acc + [cur + f])
    decreases |f|
  {
    var s := Escape(f) + ";" + rest;
    if f == [] {
      assert s == ";" + rest;
      assert s[1..] == rest;
      assert cur + f == cur;
    } else {
      DecodeEscaped(f[1..], rest, cur + [f[0]], acc);
      assert cur + [f[0]] + f[1..] == cur + f;
      if f[0] == '\\' || f[0] == ';' {
        assert s == ['\\', f[0]] + (Escape(f[1..]) + ";" + rest);
        assert s[2..] == Escape(f[1..]) + ";" + rest;
      } else {
        assert s == [f[0]] + (Escape(f[1..]) + ";" + rest);
        assert s[1..] == Escape(f[1..]) + ";" + rest;
      }
    }
  }

  lemma {:induction false} DecodeFromEncode(fs: seq<string>, acc: seq<string>)
    ensures DecodeFrom(Encode(fs), [], acc) == Some(acc + fs)
    decreases |fs|
  {
    if fs == [] {
      assert acc + fs == acc;
    } else {
      var f, rest := fs[0], fs[1..];
      assert Encode(fs) == Escape(f) + ";" + Encode(rest);
      DecodeEscaped(f, Encode(rest), [], acc);
      assert [] + f == f;
      DecodeFromEncode(rest, acc + [f]);
      assert acc + [f] + rest == acc + fs by {
        assert fs == [f] + rest;
      }
    }
  }

  /** What is stored is read back unchanged. */
  lemma RoundTrip(fs: seq<string>)
    ensures Decode(Encode(fs)) == Some(fs)
  {
    DecodeFromEncode(fs, []);
    assert [] + fs == fs;
  }

  /** Two different records never share a stored text. */
  lemma EncodeInjective(fs: seq<string>, gs: seq<string>)
    requires Encode(fs) == Encode(gs)
    ensures fs == gs
  {
    RoundTrip(fs);
    RoundTrip(gs);
  }
}
