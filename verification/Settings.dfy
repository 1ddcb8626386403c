/** Connection metadata: how patches change the stored form, and how it resolves over the
    environment (internal/api/handlers_settings.go, internal/settings/resolve.go). */
module Settings {
  import opened Wrappers
  import opened Connections

  // ----- Vault -----

  datatype VaultMeta = VaultMeta(deployment: string, addr: string, namespace: string, authMethod: string)

  datatype VaultPatch = VaultPatch(deployment: Option<string>, addr: Option<string>, namespace: Option<string>,
                                   authMethod: Option<string>)

  const SELF_MANAGED := "self_managed"
  const TOKEN_AUTH := "token"

  function OrElse<T>(given: Option<T>, prior: T): T {
    if given.Some? then given.value else prior
  }

  function NonEmpty(s: string, default: string): string {
    if s == "" then default else s
  }

  function ApplyVaultMeta(existing: Option<VaultMeta>, p: VaultPatch, replace: bool): (m: VaultMeta)
    ensures m.deployment != "" && m.authMethod != ""
  {
    var cur := if !replace && existing.Some? then existing.value else VaultMeta(SELF_MANAGED, "", "", TOKEN_AUTH);
    VaultMeta(NonEmpty(OrElse(p.deployment, cur.deployment), SELF_MANAGED),
              OrElse(p.addr, cur.addr),
              OrElse(p.namespace, cur.namespace),
              NonEmpty(OrElse(p.authMethod, cur.authMethod), TOKEN_AUTH))
  }

  function Later<T>(first: Option<T>, second: Option<T>): Option<T> {
    if second.Some? then second else first
  }

  function Then(p: VaultPatch, q: VaultPatch): VaultPatch {
    VaultPatch(Later(p.deployment, q.deployment), Later(p.addr, q.addr), Later(p.namespace, q.namespace),
               Later(p.authMethod, q.authMethod))
  }

  /** Two patches in a row are one patch in which the later field wins. */
  lemma PatchesCompose(existing: Option<VaultMeta>, p: VaultPatch, q: VaultPatch, replace: bool)
    ensures ApplyVaultMeta(Some(ApplyVaultMeta(existing, p, replace)), q, false) == ApplyVaultMeta(existing, Then(p, q), replace)
  {
  }

  datatype VaultEnv = VaultEnv(addr: string, namespace: string, authMethod: string,
                               token: string, roleId: string, secretId: string)

  datatype VaultConfig = VaultConfig(address: string, namespace: string, authMethod: string,
                                     token: string, roleId: string, secretId: string)

  /** The namespace of a stored row is never absent: the handlers always write the field. */
  function ResolveVault(env: VaultEnv, row: Option<Row<VaultMeta>>): VaultConfig {
    var auth := NonEmpty(env.authMethod, TOKEN_AUTH);
    match row
    case None => VaultConfig(env.addr, env.namespace, auth, env.token, env.roleId, env.secretId)
    case Some(r) =>
      var secrets := StoredSecrets(row);
      VaultConfig(NonEmpty(r.meta.addr, env.addr), r.meta.namespace, NonEmpty(r.meta.authMethod, auth),
                  Overlay(secrets, "token", env.token), Overlay(secrets, "role_id", env.roleId),
                  Overlay(secrets, "secret_id", env.secretId))
  }

  /** Without a row the environment is in use as it stands. */
  lemma EnvironmentAsItStands(env: VaultEnv)
    ensures var c := ResolveVault(env, None);
            && c.address == env.addr && c.namespace == env.namespace && c.token == env.token
            && c.roleId == env.roleId && c.secretId == env.secretId
            && c.authMethod == if env.authMethod == "" then "token" else env.authMethod
  {
  }

  /** With a row each setting in use is the stored one where there is one: the last secret
      written, the address and the auth method unless empty, the namespace always. */
  lemma VaultInUse(env: VaultEnv, keyMaterial: string, rows: seq<Option<Row<VaultMeta>>>, patches: seq<Patch>)
    requires IsHistory(keyMaterial, "vault", rows, patches) && patches != []
    ensures rows[|patches|].Some?
    ensures var c, meta := ResolveVault(env, rows[|patches|]), rows[|patches|].value.meta;
            && c.token == SecretInUse(patches, "token", env.token)
            && c.roleId == SecretInUse(patches, "role_id", env.roleId)
            && c.secretId == SecretInUse(patches, "secret_id", env.secretId)
            && c.address == (if meta.addr == "" then env.addr else meta.addr)
            && c.namespace == meta.namespace
            && c.authMethod == (if meta.authMethod != "" then meta.authMethod else if env.authMethod != "" then env.authMethod else "token")
  {
    SomeRow(keyMaterial, "vault", rows, patches);
    ResolvedIsLastWriteElseEnv(keyMaterial, "vault", rows, patches, "token", env.token);
    ResolvedIsLastWriteElseEnv(keyMaterial, "vault", rows, patches, "role_id", env.roleId);
    ResolvedIsLastWriteElseEnv(keyMaterial, "vault", rows, patches, "secret_id", env.secretId);
  }

  /** The value last written to a secret, unless it was cleared since or never written. */
  function SecretInUse(patches: seq<Patch>, name: Name, env: string): string {
    match LastWrite(patches, name)
    case Some(Value(v)) => v
    case _ => env
  }

  lemma SomeRow<M(!new)>(keyMaterial: string, target: string, rows: seq<Option<Row<M>>>, patches: seq<Patch>)
    requires IsHistory(keyMaterial, target, rows, patches) && patches != []
    ensures rows[|patches|].Some?
  {
    assert Followed(keyMaterial, target, rows[|patches| - 1], rows[|patches|], patches[|patches| - 1]);
  }

  /** A patch changes exactly the fields it gives; an empty deployment or auth method, and all
      fields of a first or a replacing patch that it does not give, are the defaults. */
  lemma VaultPatchMeaning(existing: Option<VaultMeta>, p: VaultPatch, replace: bool)
    ensures var m := ApplyVaultMeta(existing, p, replace);
            var kept := existing.Some? && !replace;
            && (p.deployment.Some? ==> m.deployment == if p.deployment.value == "" then "self_managed" else p.deployment.value)
            && (p.authMethod.Some? ==> m.authMethod == if p.authMethod.value == "" then "token" else p.authMethod.value)
            && (p.addr.Some? ==> m.addr == p.addr.value) && (p.namespace.Some? ==> m.namespace == p.namespace.value)
            && (p.deployment.None? ==> m.deployment == if kept && existing.value.deployment != "" then existing.value.deployment else "self_managed")
            && (p.authMethod.None? ==> m.authMethod == if kept && existing.value.authMethod != "" then existing.value.authMethod else "token")
            && (p.addr.None? ==> m.addr == if kept then existing.value.addr else "")
            && (p.namespace.None? ==> m.namespace == if kept then existing.value.namespace else "")
  {
  }

  const NO_CHANGE := VaultPatch(None, None, None, None)

  /** A patch that touches only secrets, on a target still taken from the environment, keeps
      the address; it keeps the namespace and the auth method exactly when the environment
      leaves them at their defaults, because the row it creates stores those defaults. */
  lemma FirstSecretPatchKeepsMetadataIff(env: VaultEnv, keyMaterial: string, patch: Patch)
    requires Patched(keyMaterial, None, "vault", ApplyVaultMeta(None, NO_CHANGE, false), patch).Ok?
    ensures var before := ResolveVault(env, None);
            var row := Patched(keyMaterial, None, "vault", ApplyVaultMeta(None, NO_CHANGE, false), patch).value;
            var after := ResolveVault(env, Some(row));
            && after.address == before.address
            && (after.namespace == before.namespace <==> env.namespace == "")
            && (after.authMethod == before.authMethod <==> env.authMethod == "" || env.authMethod == TOKEN_AUTH)
  {
    PatchOutcome(keyMaterial, None, "vault", ApplyVaultMeta(None, NO_CHANGE, false), patch);
  }

  /** With a row in place, patching only secrets leaves the resolved metadata as it was. */
  lemma SecretPatchKeepsMetadata(env: VaultEnv, keyMaterial: string, row: Row<VaultMeta>, patch: Patch)
    requires RowOk(keyMaterial, Some(row)) && row.meta.deployment != "" && row.meta.authMethod != ""
    requires Patched(keyMaterial, Some(row), "vault", ApplyVaultMeta(Some(row.meta), NO_CHANGE, false), patch).Ok?
    ensures var before := ResolveVault(env, Some(row));
            var next := Patched(keyMaterial, Some(row), "vault", ApplyVaultMeta(Some(row.meta), NO_CHANGE, false), patch).value;
            var after := ResolveVault(env, Some(next));
            && next.meta == row.meta
            && after.address == before.address && after.namespace == before.namespace && after.authMethod == before.authMethod
  {
    PatchOutcome(keyMaterial, Some(row), "vault", ApplyVaultMeta(Some(row.meta), NO_CHANGE, false), patch);
  }

  // ----- AAP -----

  datatype AapMeta = AapMeta(url: string, template: string, workflow: bool, skipTls: bool, mount: string)

  datatype AapPatch = AapPatch(url: Option<string>, template: Option<string>, workflow: Option<bool>,
                               skipTls: Option<bool>, mount: Option<string>)

  datatype AapEnv = AapEnv(url: string, template: string, workflow: bool, skipTls: bool, mount: string, token: string)

  function ApplyAapMeta(existing: Option<AapMeta>, p: AapPatch, replace: bool): AapMeta {
    var cur := if !replace && existing.Some? then existing.value else AapMeta("", "", false, false, "");
    AapMeta(OrElse(p.url, cur.url), OrElse(p.template, cur.template), OrElse(p.workflow, cur.workflow),
            OrElse(p.skipTls, cur.skipTls), OrElse(p.mount, cur.mount))
  }

  function ResolveAap(env: AapEnv, row: Option<Row<AapMeta>>): AapEnv {
    match row
    case None => env
    case Some(r) =>
      AapEnv(NonEmpty(r.meta.url, env.url), NonEmpty(r.meta.template, env.template), r.meta.workflow, r.meta.skipTls,
             NonEmpty(r.meta.mount, env.mount), Overlay(StoredSecrets(row), "token", env.token))
  }

  /** The same for AAP, where the two switches are always the stored ones. */
  lemma AapInUse(env: AapEnv, keyMaterial: string, rows: seq<Option<Row<AapMeta>>>, patches: seq<Patch>)
    requires IsHistory(keyMaterial, "aap", rows, patches) && patches != []
    ensures ResolveAap(env, None) == env
    ensures rows[|patches|].Some?
    ensures var c, meta := ResolveAap(env, rows[|patches|]), rows[|patches|].value.meta;
            && c.token == SecretInUse(patches, "token", env.token)
            && c.url == (if meta.url == "" then env.url else meta.url)
            && c.template == (if meta.template == "" then env.template else meta.template)
            && c.mount == (if meta.mount == "" then env.mount else meta.mount)
            && c.workflow == meta.workflow && c.skipTls == meta.skipTls
  {
    SomeRow(keyMaterial, "aap", rows, patches);
    ResolvedIsLastWriteElseEnv(keyMaterial, "aap", rows, patches, "token", env.token);
  }

  lemma AapPatchMeaning(existing: Option<AapMeta>, p: AapPatch, replace: bool)
    ensures var m := ApplyAapMeta(existing, p, replace);
            var kept := if existing.Some? && !replace then existing.value else AapMeta("", "", false, false, "");
            && (if p.url.Some? then p.url == Some(m.url) else m.url == kept.url)
            && (if p.template.Some? then p.template == Some(m.template) else m.template == kept.template)
            && (if p.workflow.Some? then p.workflow == Some(m.workflow) else m.workflow == kept.workflow)
            && (if p.skipTls.Some? then p.skipTls == Some(m.skipTls) else m.skipTls == kept.skipTls)
            && (if p.mount.Some? then p.mount == Some(m.mount) else m.mount == kept.mount)
  {
  }

  const NO_AAP_CHANGE := AapPatch(None, None, None, None, None)

  /** The same for AAP: the two switches fall back to off, not to the environment. */
  lemma FirstAapSecretPatchKeepsMetadataIff(env: AapEnv, keyMaterial: string, patch: Patch)
    requires Patched(keyMaterial, None, "aap", ApplyAapMeta(None, NO_AAP_CHANGE, false), patch).Ok?
    ensures var row := Patched(keyMaterial, None, "aap", ApplyAapMeta(None, NO_AAP_CHANGE, false), patch).value;
            var after := ResolveAap(env, Some(row));
            && after.url == env.url && after.template == env.template && after.mount == env.mount
            && (after.workflow == env.workflow && after.skipTls == env.skipTls <==> !env.workflow && !env.skipTls)
  {
    PatchOutcome(keyMaterial, None, "aap", ApplyAapMeta(None, NO_AAP_CHANGE, false), patch);
  }
}
