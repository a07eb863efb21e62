/** The Redis wire format (adapters/redis.py): `wire_wrap` prints, `wire_unwrap` parses. Float
    printing is a parameter: any newline-free printing that its parser inverts. */
module Wire {
  import opened Basics

  newtype Byte = x: int | 0 <= x < 256

  const NEWLINE: Byte := 10
  const RAW: seq<Byte> := [82, 49, 10]  // R1 and a newline
  const ENV: seq<Byte> := [69, 49, 10]  // E1 and a newline

  /** How stamps are printed and parsed; None is Python's ValueError. */
  datatype Format<!T> = Format(print_: T -> seq<Byte>, parse: seq<Byte> -> Option<T>)

  ghost predicate Lossless<T(!new)>(f: Format<T>) {
    forall t :: f.parse(f.print_(t)) == Some(t) && NEWLINE !in f.print_(t)
  }

  function Wrap<T>(f: Format<T>, value: seq<Byte>, softTtl: Option<T>, now: T): seq<Byte> {
    match softTtl
    case None => RAW + value
    case Some(ttl) => ENV + f.print_(now) + [NEWLINE] + f.print_(ttl) + [NEWLINE] + value
  }

  /** `bytes.partition(b"\n")` without the separator. */
  function Partition(s: seq<Byte>): (seq<Byte>, seq<Byte>) {
    if s == [] then ([], [])
    else if s[0] == NEWLINE then ([], s[1..])
    else var (head, tail) := Partition(s[1..]); ([s[0]] + head, tail)
  }

  /** The payload, and the creation time and soft TTL of an envelope. */
  datatype Unwrapped<T> = Unwrapped(payload: seq<Byte>, stamps: Option<(T, T)>)

  function Unwrap<T>(f: Format<T>, blob: seq<Byte>): Unwrapped<T> {
    if RAW <= blob then Unwrapped(blob[|RAW|..], None)
    else if ENV <= blob then
      var (created, rest) := Partition(blob[|ENV|..]);
      var (ttl, payload) := Partition(rest);
      if f.parse(created).Some? && f.parse(ttl).Some?
      then Unwrapped(payload, Some((f.parse(created).value, f.parse(ttl).value)))
      else Unwrapped(blob, None)
    else Unwrapped(blob, None)
  }

  lemma {:induction false} PartitionAtNewline(a: seq<Byte>, b: seq<Byte>)
    requires NEWLINE !in a
    ensures Partition(a + [NEWLINE] + b) == (a, b)
  {
    if a == [] {
      assert a + [NEWLINE] + b == [NEWLINE] + b;
    } else {
      assert (a + [NEWLINE] + b)[1..] == a[1..] + [NEWLINE] + b;
      PartitionAtNewline(a[1..], b);
      assert a[0] in a && [a[0]] + a[1..] == a;
    }
  }

  /** Any payload comes back, and exactly the stamps it was wrapped with. */
  lemma RoundTrip<T(!new)>(f: Format<T>, value: seq<Byte>, softTtl: Option<T>, now: T)
    requires Lossless(f)
    ensures Unwrap(f, Wrap(f, value, softTtl, now)) ==
            Unwrapped(value, if softTtl.Some? then Some((now, softTtl.value)) else None)
  {
    if softTtl.Some? {
      var blob := Wrap(f, value, softTtl, now);
      var rest := f.print_(softTtl.value) + [NEWLINE] + value;
      assert blob[|ENV|..] == f.print_(now) + [NEWLINE] + rest;
      assert blob[0] == 69;
      PartitionAtNewline(f.print_(now), rest);
      PartitionAtNewline(f.print_(softTtl.value), value);
    }
  }

  /** Two wrappings are equal only for equal payloads, soft TTLs and creation times. */
  lemma WrapInjective<T(!new)>(f: Format<T>, v: seq<Byte>, s: Option<T>, now: T,
                               v': seq<Byte>, s': Option<T>, now': T)
    requires Lossless(f) && Wrap(f, v, s, now) == Wrap(f, v', s', now')
    ensures v == v' && s == s' && (s.Some? ==> now == now')
  {
    RoundTrip(f, v, s, now);
    RoundTrip(f, v', s', now');
  }

  /** Whatever bytes Redis returns, the payload is a suffix of them: all of them unless a
      recognised header is stripped. */
  lemma UnwrapSuffix<T>(f: Format<T>, blob: seq<Byte>)
    ensures var p := Unwrap(f, blob).payload;
            |p| <= |blob| && p == blob[|blob| - |p|..]
    ensures Unwrap(f, blob).payload == blob || RAW <= blob || (ENV <= blob && Unwrap(f, blob).stamps.Some?)
  {
    if !(RAW <= blob) && ENV <= blob {
      var body := blob[|ENV|..];
      PartitionSuffix(body);
      PartitionSuffix(Partition(body).1);
    }
  }

  lemma {:induction false} PartitionSuffix(s: seq<Byte>)
    ensures var rest := Partition(s).1; |rest| <= |s| && rest == s[|s| - |rest|..]
  {
    if s != [] && s[0] != NEWLINE {
      PartitionSuffix(s[1..]);
    }
  }

  /** `blob` is E1, a newline, two stamps the format parses, each ended by a newline, and the
      payload; what is missing at the end counts as empty. */
  ghost predicate Enveloped<T>(f: Format<T>, blob: seq<Byte>, payload: seq<Byte>, stamps: (T, T),
                               a: seq<Byte>, b: seq<Byte>)
  {
    && 10 !in a && 10 !in b && f.parse(a) == Some(stamps.0) && f.parse(b) == Some(stamps.1)
    && (|| blob == [69, 49, 10] + a + [10] + b + [10] + payload
        || (payload == [] && blob == [69, 49, 10] + a + [10] + b)
        || (payload == [] && b == [] && blob == [69, 49, 10] + a))
  }

  lemma {:induction false} PartitionParts(s: seq<Byte>)
    ensures var (head, tail) := Partition(s);
            10 !in head && (s == head + [10] + tail || (s == head && tail == []))
  {
    if s != [] && s[0] != NEWLINE {
      PartitionParts(s[1..]);
      var (head, tail) := Partition(s[1..]);
      assert s == [s[0]] + s[1..];
      assert [s[0]] + (head + [10] + tail) == [s[0]] + head + [10] + tail;
    }
  }

  lemma {:induction false} PartitionWithout(s: seq<Byte>)
    requires 10 !in s
    ensures Partition(s) == (s, [])
  {
    if s != [] {
      PartitionWithout(s[1..]);
      assert s == [s[0]] + s[1..];
    }
  }

  ghost predicate IsEnvelope<T(!new)>(f: Format<T>, blob: seq<Byte>) {
    exists payload, stamps, a, b :: Enveloped(f, blob, payload, stamps, a, b)
  }

  lemma UnwrapsEnvelope<T(!new)>(f: Format<T>, blob: seq<Byte>, payload: seq<Byte>, stamps: (T, T))
    ensures Unwrap(f, blob) == Unwrapped(payload, Some(stamps)) <==>
              exists a, b :: Enveloped(f, blob, payload, stamps, a, b)
  {
    if Unwrap(f, blob) == Unwrapped(payload, Some(stamps)) {
      var body := blob[|ENV|..];
      var (a, rest) := Partition(body);
      PartitionParts(body);
      PartitionParts(rest);
      assert blob == [69, 49, 10] + body;
      EnvelopeParts(body, a, rest, Partition(rest).0, payload);
      assert Enveloped(f, blob, payload, stamps, a, Partition(rest).0);
    }
    if a, b :| Enveloped(f, blob, payload, stamps, a, b) {
      EnvelopeUnwraps(f, blob, payload, stamps, a, b);
    }
  }

  /** Any bytes at all: stamps come out if and only if the blob is an envelope with just those
      stamps and that payload; else R1 and a newline are stripped, or nothing. */
  lemma UnwrapExactly<T(!new)>(f: Format<T>, blob: seq<Byte>, payload: seq<Byte>, stamps: (T, T))
    ensures Unwrap(f, blob) == Unwrapped(payload, Some(stamps)) <==>
              exists a, b :: Enveloped(f, blob, payload, stamps, a, b)
    ensures Unwrap(f, blob) == Unwrapped(payload, None) <==>
              || blob == [82, 49, 10] + payload
              || (blob == payload && !([82, 49, 10] <= blob) && !IsEnvelope(f, blob))
  {
    UnwrapsEnvelope(f, blob, payload, stamps);
    if RAW <= blob {
      assert blob == [82, 49, 10] + blob[|RAW|..];
    }
    var u := Unwrap(f, blob);
    if u.stamps.Some? {
      UnwrapsEnvelope(f, blob, u.payload, u.stamps.value);
    }
    if p, s, a, b :| Enveloped(f, blob, p, s, a, b) {
      EnvelopeUnwraps(f, blob, p, s, a, b);
    }
  }

  lemma EnvelopeParts(body: seq<Byte>, a: seq<Byte>, rest: seq<Byte>, b: seq<Byte>, payload: seq<Byte>)
    requires body == a + [10] + rest || (body == a && rest == [])
    requires rest == b + [10] + payload || (rest == b && payload == [])
    ensures || [69, 49, 10] + body == [69, 49, 10] + a + [10] + b + [10] + payload
            || (payload == [] && [69, 49, 10] + body == [69, 49, 10] + a + [10] + b)
            || (payload == [] && b == [] && body == a)
  {
    if body == a + [10] + rest {
      assert [69, 49, 10] + body == [69, 49, 10] + a + [10] + rest;
      if rest == b + [10] + payload {
        assert [69, 49, 10] + a + [10] + rest == [69, 49, 10] + a + [10] + b + [10] + payload;
      }
    }
  }

  lemma EnvelopeUnwraps<T>(f: Format<T>, blob: seq<Byte>, payload: seq<Byte>, stamps: (T, T),
                           a: seq<Byte>, b: seq<Byte>)
    requires Enveloped(f, blob, payload, stamps, a, b)
    ensures Unwrap(f, blob) == Unwrapped(payload, Some(stamps))
  {
    assert blob[0] == 69 && ENV <= blob;
    if blob == [69, 49, 10] + a + [10] + b + [10] + payload {
      assert blob[|ENV|..] == a + [10] + (b + [10] + payload);
      PartitionAtNewline(a, b + [10] + payload);
      PartitionAtNewline(b, payload);
    } else if blob == [69, 49, 10] + a + [10] + b {
      assert blob[|ENV|..] == a + [10] + b;
      PartitionAtNewline(a, b);
      PartitionWithout(b);
    } else {
      assert blob[|ENV|..] == a;
      PartitionWithout(a);
    }
  }

  // Decimal stamps are one such format

  function Digits(n: nat): seq<Byte> {
    if n < 10 then [(48 + n) as Byte] else Digits(n / 10) + [(48 + n % 10) as Byte]
  }

  function ParseDigits(s: seq<Byte>): Option<nat> {
    if s == [] then None
    else
      var last := s[|s| - 1];
      if !(48 <= last <= 57) then None
      else if |s| == 1 then Some(last as int - 48)
      else match ParseDigits(s[..|s| - 1])
        case None => None
        case Some(n) => Some(10 * n + (last as int - 48))
  }

  lemma {:induction false} DigitsRoundTrip(n: nat)
    ensures ParseDigits(Digits(n)) == Some(n) && NEWLINE !in Digits(n)
  {
    if n >= 10 {
      DigitsRoundTrip(n / 10);
      assert Digits(n)[..|Digits(n)| - 1] == Digits(n / 10);
    }
  }

  lemma DecimalIsLossless()
    ensures Lossless(Format(Digits, ParseDigits))
  {
    forall n: nat ensures ParseDigits(Digits(n)) == Some(n) && NEWLINE !in Digits(n) {
      DigitsRoundTrip(n);
    }
  }
}
