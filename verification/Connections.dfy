/** Connection settings: secret patches, their sealed storage, and resolution over the
    environment (internal/api/handlers_settings.go, internal/store/connections.go,
    internal/settings/resolve.go). */
module Connections {
  import opened Wrappers

  type Name = string

  // ----- secret patches -----

  /** One secret of a request body: absent, JSON null, or a string. */
  datatype SecretField = Omitted | Null | Value(value: string)

  type Patch = map<Name, SecretField>

  predicate Keeps(f: SecretField) {
    f.Omitted? || f == Value("")
  }

  /** What a field writes; the empty string stands for "clear". */
  function Written(f: SecretField): string {
    if f.Value? then f.value else ""
  }

  function IncomingOf(p: Patch): map<Name, string> {
    map k | k in p && !Keeps(p[k]) :: Written(p[k])
  }

  function KeepOf(p: Patch): set<Name> {
    set k | k in p && Keeps(p[k])
  }

  /** The fields are visited in any order. */
  method CollectSecrets(fields: Patch) returns (secrets: map<Name, string>, keep: set<Name>)
    ensures secrets == IncomingOf(fields) && keep == KeepOf(fields)
    ensures secrets.Keys !! keep && secrets.Keys + keep == fields.Keys
  {
    secrets, keep := map[], {};
    var rest := fields.Keys;
    while rest != {}
      invariant rest <= fields.Keys
      invariant secrets == map k | k in fields && !Keeps(fields[k]) && k !in rest :: Written(fields[k])
      invariant keep == set k | k in fields && Keeps(fields[k]) && k !in rest
      decreases rest
    {
      var key :| key in rest;
      rest := rest - {key};
      var f := fields[key];
      if f.Omitted? || f == Value("") {
        keep := keep + {key};
      } else if f.Null? {
        secrets := secrets[key := ""];
      } else {
        secrets := secrets[key := f.value];
      }
    }
  }

  predicate HasNewSecrets(incoming: map<Name, string>, keep: set<Name>) {
    exists k :: k in incoming && k !in keep
  }

  function Merged(previous: map<Name, string>, incoming: map<Name, string>, keep: set<Name>): map<Name, string> {
    map k | k in previous.Keys + incoming.Keys
            && (if k in incoming && k !in keep then incoming[k] != "" else k in previous)
      :: if k in incoming && k !in keep then incoming[k] else previous[k]
  }

  /** The incoming secrets are visited in any order. */
  method MergeSecrets(previous: map<Name, string>, incoming: map<Name, string>, keep: set<Name>) returns (out: map<Name, string>)
    ensures out == Merged(previous, incoming, keep)
  {
    out := previous;
    var rest := incoming.Keys;
    assert out == Merged(previous, incoming, keep + rest);
    while rest != {}
      invariant rest <= incoming.Keys
      invariant out == Merged(previous, incoming, keep + rest)
      decreases rest
    {
      var k :| k in rest;
      var after := rest - {k};
      if k !in keep {
        if incoming[k] == "" {
          out := out - {k};
        } else {
          out := out[k := incoming[k]];
        }
      }
      assert out == Merged(previous, incoming, keep + after);
      rest := after;
    }
    assert keep + rest == keep;
  }

  // ----- the encryption key -----

  function HexValue(c: char): Option<nat> {
    if '0' <= c <= '9' then Some(c as int - '0' as int)
    else if 'a' <= c <= 'f' then Some(c as int - 'a' as int + 10)
    else if 'A' <= c <= 'F' then Some(c as int - 'A' as int + 10)
    else None
  }

  function HexDecode(raw: string): Option<seq<nat>>
    requires |raw| % 2 == 0
  {
    if raw == "" then Some([])
    else
      var hi, lo, rest := HexValue(raw[0]), HexValue(raw[1]), HexDecode(raw[2..]);
      if hi.Some? && lo.Some? && rest.Some? then Some([16 * hi.value + lo.value] + rest.value) else None
  }

  function ParseKey(raw: string): Option<seq<nat>> {
    if |raw| == 64 then HexDecode(raw)
    else if |raw| == 32 then Some(seq(32, i requires 0 <= i < 32 => raw[i] as int))
    else None
  }

  lemma {:induction false} HexLength(raw: string)
    requires |raw| % 2 == 0
    ensures HexDecode(raw).Some? ==> |HexDecode(raw).value| == |raw| / 2
  {
    if raw != "" {
      HexLength(raw[2..]);
    }
  }

  /** A key that parses has 32 bytes, whichever form it is given in. */
  lemma KeysHave32Bytes(raw: string)
    ensures ParseKey(raw).Some? ==> |ParseKey(raw).value| == 32
    ensures ParseKey(raw).Some? ==> |raw| == 64 || |raw| == 32
  {
    if |raw| == 64 {
      HexLength(raw);
    }
  }

  const LOWER: string := "0123456789abcdef"
  const UPPER: string := "0123456789ABCDEF"

  /** Bytes as two digits each, from either alphabet. */
  function HexEncode(bytes: seq<nat>, digits: string): string
    requires |digits| == 16 && forall k :: 0 <= k < |bytes| ==> bytes[k] < 256
  {
    if bytes == [] then "" else [digits[bytes[0] / 16], digits[bytes[0] % 16]] + HexEncode(bytes[1..], digits)
  }

  lemma DigitValue(v: nat)
    requires v < 16
    ensures HexValue(LOWER[v]) == Some(v) && HexValue(UPPER[v]) == Some(v)
  {
  }

  lemma HexPair(hi: char, lo: char, rest: string, bytes: seq<nat>)
    requires HexValue(hi).Some? && HexValue(lo).Some? && |rest| % 2 == 0 && HexDecode(rest) == Some(bytes)
    ensures |[hi, lo] + rest| == |rest| + 2
    ensures HexDecode([hi, lo] + rest) == Some([16 * HexValue(hi).value + HexValue(lo).value] + bytes)
  {
    var raw := [hi, lo] + rest;
    assert raw[0] == hi && raw[1] == lo && raw[2..] == rest;
  }

  lemma HexByte(b: nat, hi: char, lo: char, rest: string, bytes: seq<nat>)
    requires b < 256 && HexValue(hi) == Some(b / 16) && HexValue(lo) == Some(b % 16)
    requires |rest| % 2 == 0 && HexDecode(rest) == Some(bytes)
    ensures |[hi, lo] + rest| == |rest| + 2 && HexDecode([hi, lo] + rest) == Some([b] + bytes)
  {
    HexPair(hi, lo, rest, bytes);
    var _, _ := Nibbles(b);
  }

  lemma DigitOf(digits: string, v: nat)
    requires v < 16 && (digits == LOWER || digits == UPPER)
    ensures HexValue(digits[v]) == Some(v)
  {
    DigitValue(v);
  }

  lemma Nibbles(b: nat) returns (q: nat, r: nat)
    requires b < 256
    ensures q == b / 16 && r == b % 16 && q < 16 && r < 16 && 16 * q + r == b
  {
    q, r := b / 16, b % 16;
  }

  /** A key given as hex digits, in lower or in upper case, is the bytes they stand for. */
  lemma {:induction false} HexRoundTrip(bytes: seq<nat>, digits: string)
    requires digits == LOWER || digits == UPPER
    requires forall k :: 0 <= k < |bytes| ==> bytes[k] < 256
    ensures |HexEncode(bytes, digits)| == 2 * |bytes| && HexDecode(HexEncode(bytes, digits)) == Some(bytes)
    decreases |bytes|
  {
    if bytes != [] {
      var first, rest := bytes[0], bytes[1..];
      HexRoundTrip(rest, digits);
      var q, r := Nibbles(first);
      DigitOf(digits, q);
      DigitOf(digits, r);
      HexByte(first, digits[q], digits[r], HexEncode(rest, digits), rest);
      assert bytes == [first] + rest;
    }
  }

  lemma {:induction false} OnlyHexDecodes(raw: string, k: nat)
    requires |raw| % 2 == 0 && k < |raw| && HexDecode(raw).Some?
    ensures raw[k] in LOWER || raw[k] in UPPER
    decreases |raw|
  {
    if k >= 2 {
      OnlyHexDecodes(raw[2..], k - 2);
      assert raw[2..][k - 2] == raw[k];
    } else {
      DigitIsListed(raw[k]);
    }
  }

  lemma DigitIsListed(c: char)
    requires HexValue(c).Some?
    ensures c in LOWER || c in UPPER
  {
    var v := HexValue(c).value;
    assert LOWER[v] == c || UPPER[v] == c;
  }

  // ----- sealed storage -----

  datatype Ciphertext = Sealed(key: seq<nat>, secrets: map<Name, string>) | Garbled

  /** Opening inverts sealing under the same key and fails under any other. */
  function Open(key: seq<nat>, c: Ciphertext): Option<map<Name, string>> {
    if c.Sealed? && c.key == key then Some(c.secrets) else None
  }

  datatype Row<M> = Row(meta: M, secretsEnc: Option<Ciphertext>, secretsSet: bool)

  datatype UpsertError = InvalidTarget | KeyMissing | OpenFailed

  datatype Result<T> = Ok(value: T) | Err(error: UpsertError)

  predicate IsTarget(target: string) {
    target == "vault" || target == "aap" || target == "eda"
  }

  function Prepare<M>(keyMaterial: string, existing: Option<Row<M>>, target: string, meta: M,
                      incoming: map<Name, string>, keep: set<Name>): Result<Row<M>>
  {
    if !IsTarget(target) then Err(InvalidTarget)
    else if !HasNewSecrets(incoming, keep) then
      Ok(if existing.Some? then existing.value.(meta := meta) else Row(meta, None, false))
    else
      var key := ParseKey(keyMaterial);
      if key.None? then Err(KeyMissing)
      else
        var previous := if existing.Some? && existing.value.secretsEnc.Some? then Open(key.value, existing.value.secretsEnc.value) else Some(map[]);
        if previous.None? then Err(OpenFailed)
        else
          var merged := Merged(previous.value, incoming, keep);
          if merged == map[] then Ok(Row(meta, None, false))
          else Ok(Row(meta, Some(Sealed(key.value, merged)), true))
  }

  /** The connections table, rows by target; metadata of any type. */
  class ConnectionStore<M(==)> {
    const keyMaterial: string
    var rows: map<string, Row<M>>

    constructor (keyMaterial: string)
      ensures this.keyMaterial == keyMaterial && rows == map[]
    {
      this.keyMaterial := keyMaterial;
      rows := map[];
    }

    function Existing(target: string): Option<Row<M>>
      reads this
    {
      if target in rows then Some(rows[target]) else None
    }

    method UpsertConnection(target: string, meta: M, incoming: map<Name, string>, keep: set<Name>) returns (r: Result<Row<M>>)
      modifies this`rows
      ensures r == Prepare(keyMaterial, old(Existing(target)), target, meta, incoming, keep)
      ensures rows == if r.Ok? then old(rows)[target := r.value] else old(rows)
    {
      if target != "vault" && target != "aap" && target != "eda" {
        return Err(InvalidTarget);
      }
      var row := if target in rows then rows[target].(meta := meta) else Row(meta, None, false);
      if HasNewSecrets(incoming, keep) {
        var key := ParseKey(keyMaterial);
        if key.None? {
          return Err(KeyMissing);
        }
        var previous := map[];
        if row.secretsEnc.Some? {
          var plain := Open(key.value, row.secretsEnc.value);
          if plain.None? {
            return Err(OpenFailed);
          }
          previous := plain.value;
        }
        var merged := MergeSecrets(previous, incoming, keep);
        row := if merged == map[] then row.(secretsEnc := None, secretsSet := false)
               else row.(secretsEnc := Some(Sealed(key.value, merged)), secretsSet := true);
      }
      rows := rows[target := row];
      r := Ok(row);
    }

    /** A secrets patch of one target, as the settings handlers apply it. */
    method ApplyPatch(target: string, meta: M, patch: Patch) returns (r: Result<Row<M>>)
      modifies this`rows
      ensures r == Patched(keyMaterial, old(Existing(target)), target, meta, patch)
      ensures rows == if r.Ok? then old(rows)[target := r.value] else old(rows)
    {
      var secrets, keep := CollectSecrets(patch);
      r := UpsertConnection(target, meta, secrets, keep);
    }
  }

  function Patched<M>(keyMaterial: string, existing: Option<Row<M>>, target: string, meta: M, patch: Patch): Result<Row<M>> {
    Prepare(keyMaterial, existing, target, meta, IncomingOf(patch), KeepOf(patch))
  }

  // ----- runs of patches -----

  function StoredSecrets<M>(row: Option<Row<M>>): map<Name, string> {
    if row.Some? && row.value.secretsEnc.Some? && row.value.secretsEnc.value.Sealed?
    then row.value.secretsEnc.value.secrets else map[]
  }

  /** A row this key wrote: its flag tells whether there is a ciphertext, and the ciphertext is
      never of an empty map nor of an empty secret. */
  ghost predicate RowOk<M>(keyMaterial: string, row: Option<Row<M>>) {
    row.Some? ==>
      && (row.value.secretsSet <==> row.value.secretsEnc.Some?)
      && (row.value.secretsEnc.Some? ==>
            && ParseKey(keyMaterial).Some?
            && row.value.secretsEnc.value == Sealed(ParseKey(keyMaterial).value, StoredSecrets(row))
            && StoredSecrets(row) != map[]
            && forall k :: k in StoredSecrets(row) ==> StoredSecrets(row)[k] != "")
  }

  /** A patch on a sound row fails only for a bad target, or for a missing key when it writes. */
  lemma PatchOutcome<M>(keyMaterial: string, existing: Option<Row<M>>, target: string, meta: M, patch: Patch)
    requires RowOk(keyMaterial, existing)
    ensures var r := Patched(keyMaterial, existing, target, meta, patch);
            && (r.Err? <==> target !in {"vault", "aap", "eda"}
                            || (ParseKey(keyMaterial).None? && exists k :: k in patch && patch[k] != Omitted && patch[k] != Value("")))
            && (r.Ok? ==> RowOk(keyMaterial, Some(r.value)) && r.value.meta == meta
                          && StoredSecrets(Some(r.value)) == Merged(StoredSecrets(existing), IncomingOf(patch), KeepOf(patch)))
  {
    var incoming, keep := IncomingOf(patch), KeepOf(patch);
    if k :| k in patch && !Keeps(patch[k]) {
      assert k in incoming && k !in keep;
    } else {
      assert !HasNewSecrets(incoming, keep);
      assert Merged(StoredSecrets(existing), incoming, keep) == StoredSecrets(existing);
    }
  }

  /** A row sealed under another key cannot be written any more, and what it holds is kept. */
  lemma OtherKeyFails<M>(keyMaterial: string, row: Row<M>, target: string, meta: M, patch: Patch)
    requires IsTarget(target) && ParseKey(keyMaterial).Some? && exists k :: k in patch && patch[k] != Omitted && patch[k] != Value("")
    requires row.secretsEnc.Some? && row.secretsEnc.value.Sealed? && row.secretsEnc.value.key != ParseKey(keyMaterial).value
    ensures Patched(keyMaterial, Some(row), target, meta, patch) == Err(OpenFailed)
  {
    var k :| k in patch && !Keeps(patch[k]);
    assert k in IncomingOf(patch) && k !in KeepOf(patch);
  }

  /** The last patch that says something about a name; keeping says nothing. */
  function LastWrite(patches: seq<Patch>, name: Name): Option<SecretField> {
    if patches == [] then None
    else
      var p := patches[|patches| - 1];
      if name in p && !Keeps(p[name]) then Some(p[name]) else LastWrite(patches[..|patches| - 1], name)
  }

  /** The rows of a target under successive patches. */
  ghost predicate IsHistory<M(!new)>(keyMaterial: string, target: string, rows: seq<Option<Row<M>>>, patches: seq<Patch>) {
    && |rows| == |patches| + 1 && rows[0] == None
    && forall i :: 0 <= i < |patches| ==> Followed(keyMaterial, target, rows[i], rows[i + 1], patches[i])
  }

  ghost predicate Followed<M(!new)>(keyMaterial: string, target: string, before: Option<Row<M>>, after: Option<Row<M>>, patch: Patch) {
    exists meta: M :: Patched(keyMaterial, before, target, meta, patch).Ok?
                      && after == Some(Patched(keyMaterial, before, target, meta, patch).value)
  }

  lemma FollowedMeaning<M(!new)>(keyMaterial: string, target: string, before: Option<Row<M>>, after: Option<Row<M>>, patch: Patch)
    requires RowOk(keyMaterial, before) && Followed(keyMaterial, target, before, after, patch)
    ensures RowOk(keyMaterial, after)
    ensures StoredSecrets(after) == Merged(StoredSecrets(before), IncomingOf(patch), KeepOf(patch))
  {
    var meta: M :| Patched(keyMaterial, before, target, meta, patch).Ok?
                   && after == Some(Patched(keyMaterial, before, target, meta, patch).value);
    PatchOutcome(keyMaterial, before, target, meta, patch);
  }

  /** After any sequence of accepted patches each stored secret is the last value written to
      it: keeping changes nothing, null removes it. */
  lemma {:induction false} StoredIsLastWrite<M(!new)>(keyMaterial: string, target: string, rows: seq<Option<Row<M>>>,
                                                      patches: seq<Patch>, n: nat, name: Name)
    requires IsHistory(keyMaterial, target, rows, patches) && n <= |patches|
    ensures RowOk(keyMaterial, rows[n])
    ensures var last := LastWrite(patches[..n], name);
            && (name in StoredSecrets(rows[n]) <==> last.Some? && last.value.Value?)
            && (name in StoredSecrets(rows[n]) ==> StoredSecrets(rows[n])[name] == last.value.value)
  {
    if n > 0 {
      StoredIsLastWrite(keyMaterial, target, rows, patches, n - 1, name);
      FollowedMeaning(keyMaterial, target, rows[n - 1], rows[n], patches[n - 1]);
      assert patches[..n][..n - 1] == patches[..n - 1];
    }
  }

  predicate SetLast(patches: seq<Patch>, name: Name) {
    LastWrite(patches, name).Some? && LastWrite(patches, name).value.Value?
  }

  lemma StoredIffSetLast<M(!new)>(keyMaterial: string, target: string, rows: seq<Option<Row<M>>>, patches: seq<Patch>, name: Name)
    requires IsHistory(keyMaterial, target, rows, patches)
    ensures RowOk(keyMaterial, rows[|patches|])
    ensures name in StoredSecrets(rows[|patches|]) <==> SetLast(patches, name)
  {
    StoredIsLastWrite(keyMaterial, target, rows, patches, |patches|, name);
    assert patches[..|patches|] == patches;
  }

  lemma NonemptyHasKey(m: map<Name, string>) returns (name: Name)
    requires m != map[]
    ensures name in m
  {
    assert m.Keys != {};
    name :| name in m;
  }

  /** The public "secrets set" flag holds exactly when some secret's last write was a value. */
  lemma SecretsSetIff<M(!new)>(keyMaterial: string, target: string, rows: seq<Option<Row<M>>>, patches: seq<Patch>)
    requires IsHistory(keyMaterial, target, rows, patches) && patches != []
    ensures rows[|patches|].Some?
    ensures rows[|patches|].value.secretsSet <==> exists name :: SetLast(patches, name)
  {
    var n := |patches|;
    assert Followed(keyMaterial, target, rows[n - 1], rows[n], patches[n - 1]);
    StoredIffSetLast(keyMaterial, target, rows, patches, "");
    var stored := StoredSecrets(rows[n]);
    assert rows[n].value.secretsSet <==> stored != map[];
    if stored != map[] {
      var name := NonemptyHasKey(stored);
      StoredIffSetLast(keyMaterial, target, rows, patches, name);
    }
    if name :| SetLast(patches, name) {
      StoredIffSetLast(keyMaterial, target, rows, patches, name);
      assert name in stored;
    }
  }

  // ----- resolution over the environment -----

  function Overlay(stored: map<Name, string>, name: Name, env: string): string {
    if name in stored && stored[name] != "" then stored[name] else env
  }

  /** The secret in use is the last value written, else the environment's. */
  lemma ResolvedIsLastWriteElseEnv<M(!new)>(keyMaterial: string, target: string, rows: seq<Option<Row<M>>>,
                                            patches: seq<Patch>, name: Name, env: string)
    requires IsHistory(keyMaterial, target, rows, patches)
    ensures Overlay(StoredSecrets(rows[|patches|]), name, env)
            == match LastWrite(patches, name)
               case Some(Value(v)) => v
               case _ => env
  {
    StoredIsLastWrite(keyMaterial, target, rows, patches, |patches|, name);
    assert patches[..|patches|] == patches;
  }
}
