/** Participant names and the credentials resolved for them (src/config.rs:127-173, src/scenarios.rs:289-299). */
module Credentials {
  import opened Wrappers
  import opened Marker
  import opened Durations
  import CotXml

  const PLACEHOLDER: Bytes := "{participant_id}"

  predicate SafeChar(c: char) {
    IsDigit(c) || 'a' <= c <= 'z' || 'A' <= c <= 'Z' || c == '-' || c == '_' || c == '.'
  }

  predicate IsSafe(id: Bytes) {
    id != "" && (forall c :: c in id ==> SafeChar(c)) && id != "." && id != ".."
  }

  /** `str::replace` with the placeholder: from the left, without overlap. */
  function Fill(template: Bytes, id: Bytes): Bytes {
    if template == [] then []
    else if PLACEHOLDER <= template then id + Fill(template[|PLACEHOLDER|..], id)
    else [template[0]] + Fill(template[1..], id)
  }

  /** How many placeholders that fills. */
  function Holes(template: Bytes): nat {
    if template == [] then 0
    else if PLACEHOLDER <= template then 1 + Holes(template[|PLACEHOLDER|..])
    else Holes(template[1..])
  }

  datatype TlsConfig = TlsConfig(
    clientCert: Option<Bytes>, clientKey: Option<Bytes>,
    clientCertTemplate: Option<Bytes>, clientKeyTemplate: Option<Bytes>)

  datatype TlsTemplateError = TlsTemplateError

  predicate Contains(s: Bytes, m: Bytes) {
    exists i :: 0 <= i <= |s| && m <= s[i..]
  }

  function ForParticipant(tls: TlsConfig, id: Bytes): Result<TlsConfig, TlsTemplateError> {
    match (tls.clientCertTemplate, tls.clientKeyTemplate)
    case (None, None) => Ok(tls)
    case (Some(cert), Some(key)) =>
      if tls.clientCert.Some? || tls.clientKey.Some? || !Contains(cert, PLACEHOLDER) || !Contains(key, PLACEHOLDER)
         || !IsSafe(id) then Err(TlsTemplateError)
      else Ok(TlsConfig(Some(Fill(cert, id)), Some(Fill(key, id)), None, None))
    case _ => Err(TlsTemplateError)
  }

  /** A name is safe exactly if it is not empty, nor one or two dots, and holds ASCII letters, digits and `-_.` only. */
  lemma SafeExactly(id: Bytes)
    ensures IsSafe(id) <==> id !in {"", ".", ".."} && forall c :: c in id ==>
      48 <= c as int <= 57 || 65 <= c as int <= 90 || 97 <= c as int <= 122 || c as int in {45, 46, 95}
  {
    forall c
      ensures SafeChar(c) <==>
        48 <= c as int <= 57 || 65 <= c as int <= 90 || 97 <= c as int <= 122 || c as int in {45, 46, 95}
    {
      CodePoint(c);
    }
    hide SafeChar;
  }

  lemma CodePoint(c: char)
    ensures SafeChar(c) <==>
      48 <= c as int <= 57 || 65 <= c as int <= 90 || 97 <= c as int <= 122 || c as int in {45, 46, 95}
  {
  }

  lemma PlaceholderStarts(t: Bytes)
    ensures PLACEHOLDER <= t <==> At(t, PLACEHOLDER, 0)
    ensures |PLACEHOLDER| == 16
  {
  }

  /** A text without the placeholder is kept. */
  lemma {:induction false} FillKeeps(t: Bytes, id: Bytes)
    requires Absent(t, PLACEHOLDER)
    ensures Fill(t, id) == t
    decreases |t|
  {
    if t != [] {
      PlaceholderStarts(t);
      hide PLACEHOLDER;
      forall i: nat
        ensures At(t[1..], PLACEHOLDER, i) <==> At(t, PLACEHOLDER, 1 + i)
      {
        AtDrop(t, PLACEHOLDER, 1, i);
      }
      FillKeeps(t[1..], id);
    }
  }

  lemma FirstIsLater(t: Bytes, i: nat)
    requires FirstAt(t, PLACEHOLDER, i) && i > 0
    ensures t != [] && FirstAt(t[1..], PLACEHOLDER, i - 1) && !(PLACEHOLDER <= t)
  {
    PlaceholderStarts(t);
    AtBound(t, PLACEHOLDER, i);
    hide PLACEHOLDER;
    AtDrop(t, PLACEHOLDER, 1, i - 1);
    forall j | j < i - 1
      ensures !At(t[1..], PLACEHOLDER, j)
    {
      if j >= 0 {
        AtDrop(t, PLACEHOLDER, 1, j);
      }
    }
  }

  lemma FillUnfolds(t: Bytes, id: Bytes)
    requires t != []
    ensures PLACEHOLDER <= t ==> |t| >= 16 && Fill(t, id) == id + Fill(t[16..], id)
    ensures !(PLACEHOLDER <= t) ==> Fill(t, id) == [t[0]] + Fill(t[1..], id)
  {
    PlaceholderStarts(t);
    hide PLACEHOLDER;
  }

  lemma FirstIsThere(t: Bytes, i: nat)
    requires FirstAt(t, PLACEHOLDER, i)
    ensures i + 16 <= |t| && (i == 0 ==> PLACEHOLDER <= t)
  {
    PlaceholderStarts(t);
    AtBound(t, PLACEHOLDER, i);
    hide PLACEHOLDER;
  }

  lemma Regroup(t: Bytes, id: Bytes, i: nat, tail: Bytes)
    requires 0 < i <= |t|
    ensures [t[0]] + (t[1..][..i - 1] + id + tail) == t[..i] + id + tail
  {
  }

  lemma SliceOfRest(t: Bytes, i: nat)
    requires 0 < i <= |t|
    ensures t[1..][i - 1..] == t[i..]
  {
  }

  /** Filling puts the id in the place of the first placeholder and goes on behind it. */
  lemma {:induction false} FillsFirst(t: Bytes, id: Bytes, i: nat)
    requires FirstAt(t, PLACEHOLDER, i)
    ensures i + 16 <= |t| && Fill(t, id) == t[..i] + id + Fill(t[i + 16..], id)
    decreases i
  {
    FirstIsThere(t, i);
    hide *;
    FillUnfolds(t, id);
    if i == 0 {
      assert t[..0] + id == id;
    } else {
      FirstIsLater(t, i);
      FillsFirst(t[1..], id, i - 1);
      SliceOfRest(t, i + 16);
      Regroup(t, id, i, Fill(t[i + 16..], id));
    }
  }

  /** A template that contains the placeholder has one that is filled. */
  lemma {:induction false} ContainsHasHole(t: Bytes)
    ensures Contains(t, PLACEHOLDER) ==> Holes(t) > 0
    decreases |t|
  {
    if Contains(t, PLACEHOLDER) && !(PLACEHOLDER <= t) {
      var i :| 0 <= i <= |t| && PLACEHOLDER <= t[i..];
      assert i > 0 && t[1..][i - 1..] == t[i..];
      ContainsHasHole(t[1..]);
    }
  }

  /** Every filled placeholder counts: so the length of the result tells the length of the id. */
  lemma {:induction false} FillLength(t: Bytes, a: Bytes, b: Bytes)
    ensures |Fill(t, a)| - |Fill(t, b)| == Holes(t) * (|a| - |b|)
    decreases |t|
  {
    var d := |a| - |b|;
    if t != [] && PLACEHOLDER <= t {
      var rest := t[|PLACEHOLDER|..];
      FillLength(rest, a, b);
      OneHoleMore(Holes(rest), d);
    } else if t != [] {
      FillLength(t[1..], a, b);
    }
  }

  lemma OneHoleMore(n: nat, d: int)
    ensures (1 + n) * d == d + n * d
  {
  }

  lemma NoProductIsZero(n: nat, d: int)
    requires n > 0 && n * d == 0
    ensures d == 0
  {
  }

  /** With ids of one length the results agree part by part. */
  lemma {:induction false} SameFillSameId(t: Bytes, a: Bytes, b: Bytes)
    requires |a| == |b| && Holes(t) > 0 && Fill(t, a) == Fill(t, b)
    ensures a == b
    decreases |t|
  {
    if PLACEHOLDER <= t {
      var rest := t[|PLACEHOLDER|..];
      assert Fill(t, a)[..|a|] == a && Fill(t, b)[..|b|] == b;
    } else {
      assert Fill(t, a)[1..] == Fill(t[1..], a) && Fill(t, b)[1..] == Fill(t[1..], b);
      SameFillSameId(t[1..], a, b);
    }
  }

  /** Filling a template that has a placeholder is injective. */
  lemma FillInjective(t: Bytes, a: Bytes, b: Bytes)
    requires Contains(t, PLACEHOLDER)
    ensures Fill(t, a) == Fill(t, b) <==> a == b
  {
    ContainsHasHole(t);
    FillLength(t, a, b);
    if Fill(t, a) == Fill(t, b) {
      NoProductIsZero(Holes(t), |a| - |b|);
      SameFillSameId(t, a, b);
    }
  }

  /** Under templates, distinct participants get distinct certificate and key paths. */
  lemma DistinctCredentials(tls: TlsConfig, a: Bytes, b: Bytes)
    requires tls.clientCertTemplate.Some? || tls.clientKeyTemplate.Some?
    requires ForParticipant(tls, a).Ok? && ForParticipant(tls, b).Ok?
    ensures var ra, rb := ForParticipant(tls, a).value, ForParticipant(tls, b).value;
      && ra.clientCert.Some? && ra.clientKey.Some?
      && (ra.clientCert == rb.clientCert <==> a == b)
      && (ra.clientKey == rb.clientKey <==> a == b)
  {
    hide Contains, IsSafe;
    FillInjective(tls.clientCertTemplate.value, a, b);
    FillInjective(tls.clientKeyTemplate.value, a, b);
  }

  /** What is resolved: the certificate from its template and the key from its own; without templates, nothing. */
  lemma ResolvesTo(tls: TlsConfig, id: Bytes)
    requires ForParticipant(tls, id).Ok?
    ensures var r := ForParticipant(tls, id).value;
      if tls.clientCertTemplate.Some? then
        && tls.clientKeyTemplate.Some?
        && r.clientCert == Some(Fill(tls.clientCertTemplate.value, id))
        && r.clientKey == Some(Fill(tls.clientKeyTemplate.value, id))
      else r == tls && tls.clientKeyTemplate.None?
  {
    hide Contains, IsSafe, Fill;
  }

  /** Templates come as a pair, with placeholders, for a safe id, and not beside fixed paths; or not at all. */
  lemma ResolvesExactly(tls: TlsConfig, id: Bytes)
    ensures ForParticipant(tls, id).Ok? <==>
      || (tls.clientCertTemplate.None? && tls.clientKeyTemplate.None?)
      || (tls.clientCertTemplate.Some? && tls.clientKeyTemplate.Some? && tls.clientCert.None? && tls.clientKey.None?
          && Holes(tls.clientCertTemplate.value) > 0 && Holes(tls.clientKeyTemplate.value) > 0 && IsSafe(id))
    ensures ForParticipant(tls, id).Ok? ==>
      ForParticipant(tls, id).value.clientCertTemplate.None? && ForParticipant(tls, id).value.clientKeyTemplate.None?
  {
    if tls.clientCertTemplate.Some? {
      ContainsHasHole(tls.clientCertTemplate.value);
      HoleIsContained(tls.clientCertTemplate.value);
    }
    if tls.clientKeyTemplate.Some? {
      ContainsHasHole(tls.clientKeyTemplate.value);
      HoleIsContained(tls.clientKeyTemplate.value);
    }
    hide Contains, IsSafe, Holes, Fill;
  }

  lemma {:induction false} HoleIsContained(t: Bytes)
    ensures Holes(t) > 0 ==> Contains(t, PLACEHOLDER)
    decreases |t|
  {
    if t != [] && PLACEHOLDER <= t {
      assert t[0..] == t;
    } else if t != [] {
      HoleIsContained(t[1..]);
      if Contains(t[1..], PLACEHOLDER) {
        var i :| 0 <= i <= |t[1..]| && PLACEHOLDER <= t[1..][i..];
        assert t[i + 1..] == t[1..][i..];
      }
    }
  }

  // ---- names ----

  /** The name of a participant that the configuration does not list. */
  function ClientName(index: nat): Bytes {
    "client-" + Decimal(index)
  }

  lemma ClientNamesDiffer(i: nat, j: nat)
    ensures ClientName(i) == ClientName(j) <==> i == j
    ensures IsSafe(ClientName(i))
  {
    assert ClientName(i)[7..] == Decimal(i) && ClientName(j)[7..] == Decimal(j);
    DecimalInjective(i, j);
    assert ClientName(i)[0] == 'c';
  }

  /** The participants' names: those listed, or one for each client. */
  function Names(listed: seq<Bytes>, clients: nat): seq<Bytes> {
    if listed != [] then listed else seq(clients, i requires 0 <= i < clients => ClientName(i))
  }

  /** Names listed twice aside, all participants of a templated configuration have their own credentials. */
  lemma CredentialsAreDistinct(tls: TlsConfig, listed: seq<Bytes>, clients: nat, i: nat, j: nat)
    requires Distinct(listed)
    requires tls.clientCertTemplate.Some? || tls.clientKeyTemplate.Some?
    requires var names := Names(listed, clients);
      && i < j < |names|
      && ForParticipant(tls, names[i]).Ok? && ForParticipant(tls, names[j]).Ok?
    ensures var names := Names(listed, clients);
      var a, b := ForParticipant(tls, names[i]).value, ForParticipant(tls, names[j]).value;
      a.clientCert != b.clientCert && a.clientKey != b.clientKey
  {
    hide ForParticipant;
    var names := Names(listed, clients);
    if listed == [] {
      ClientNamesDiffer(i, j);
    }
    DistinctCredentials(tls, names[i], names[j]);
  }

  /** A safe name needs no escaping: it is written into a document as it is. */
  lemma SafeNameIsWrittenAsIs(id: Bytes)
    requires IsSafe(id)
    ensures CotXml.Escape(id) == id
  {
    CotXml.EscapeHasNoMarkup(id);
    hide CotXml.Escape;
  }
}
