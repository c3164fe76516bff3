/** The configuration document (backend/src/config_loader.py): a JSON object
    with the sections `master_credentials`, `email`, `websocket`, `logging`
    and `monitor`, held by one `ConfigLoader`. Reading and writing the file
    are left to the caller: `Load` receives the decoded document and every
    save takes whether the file write succeeded. Each property accessor of
    the source is `Lookup` of its section and key, with the `KeyError` or
    `TypeError` it can raise as `Err`. */
module Config {
  import opened Base
  import opened Json

  /** The sections `_validate_config` demands, in the order it checks them. */
  const RequiredKeys: seq<string> := ["master_credentials", "email", "websocket", "logging", "monitor"]

  /** `config[section][key]`. */
  function Lookup(cfg: map<string, Json>, section: string, key: string): (r: Result<Json>)
    ensures r.Ok? <==> section in cfg && cfg[section].JObj? && key in cfg[section].fields
    ensures r.Ok? ==> r.value == cfg[section].fields[key]
  {
    if section in cfg then Index(cfg[section], key) else Err
  }

  /** A lookup that succeeds with a truthy value. */
  predicate IsSet(r: Result<Json>) {
    r.Ok? && Truthy(r.value)
  }

  /** `bool(email_address) and bool(email_password) and bool(email_server)`:
      evaluated left to right, so a lookup is made only while the previous
      fields were set, and a failing lookup raises. */
  function IsEmailConfigured(cfg: map<string, Json>): (r: Result<bool>)
    ensures r == Ok(true) <==>
      IsSet(Lookup(cfg, "email", "address")) && IsSet(Lookup(cfg, "email", "password"))
      && IsSet(Lookup(cfg, "email", "server"))
    ensures r.Err? <==>
      || Lookup(cfg, "email", "address").Err?
      || (IsSet(Lookup(cfg, "email", "address")) && Lookup(cfg, "email", "password").Err?)
      || (IsSet(Lookup(cfg, "email", "address")) && IsSet(Lookup(cfg, "email", "password"))
          && Lookup(cfg, "email", "server").Err?)
  {
    match Lookup(cfg, "email", "address")
    case Err => Err
    case Ok(address) =>
      if !Truthy(address) then Ok(false)
      else match Lookup(cfg, "email", "password")
        case Err => Err
        case Ok(password) =>
          if !Truthy(password) then Ok(false)
          else match Lookup(cfg, "email", "server")
            case Err => Err
            case Ok(server) => Ok(Truthy(server))
  }

  /** `username == master_username and password == master_password`: only
      strings equal the given strings, and the password is looked up only
      after the user name matched. */
  function VerifyMasterCredentials(cfg: map<string, Json>, username: string, password: string): (r: Result<bool>)
    ensures r == Ok(true) <==>
      Lookup(cfg, "master_credentials", "username") == Ok(JStr(username))
      && Lookup(cfg, "master_credentials", "password") == Ok(JStr(password))
    ensures r.Err? <==>
      || Lookup(cfg, "master_credentials", "username").Err?
      || (Lookup(cfg, "master_credentials", "username") == Ok(JStr(username))
          && Lookup(cfg, "master_credentials", "password").Err?)
  {
    match Lookup(cfg, "master_credentials", "username")
    case Err => Err
    case Ok(u) =>
      if u != JStr(username) then Ok(false)
      else match Lookup(cfg, "master_credentials", "password")
        case Err => Err
        case Ok(p) => Ok(p == JStr(password))
  }

  /** The names of the five e-mail fields `update_email_config` assigns. */
  const EmailKeys: set<string> := {"server", "port", "address", "password", "ssl"}

  /** The five e-mail fields `update_email_config` assigns. */
  function EmailFields(server: Json, port: Json, address: Json, password: Json, ssl: Json): map<string, Json> {
    map["server" := server, "port" := port, "address" := address, "password" := password, "ssl" := ssl]
  }

  /** The five assignments one after another are the merge of the five fields. */
  lemma AssignFive(m: map<string, Json>, server: Json, port: Json, address: Json, password: Json, ssl: Json)
    ensures m["server" := server]["port" := port]["address" := address]["password" := password]["ssl" := ssl]
            == m + EmailFields(server, port, address, password, ssl)
  {
  }

  /** The document after `update_email_config` and the save it makes. */
  function WithEmailConfig(cfg: map<string, Json>, fields: map<string, Json>, now: string): map<string, Json>
    requires "email" in cfg && cfg["email"].JObj?
  {
    cfg["email" := JObj(cfg["email"].fields + fields)]["last_updated" := JStr(now)]
  }

  /** Exactly the five e-mail fields take the given values; every other
      e-mail field and every other section stays, and `last_updated` is
      stamped. */
  lemma UpdateEmailConfigIsExact(cfg: map<string, Json>, server: Json, port: Json, address: Json,
                                 password: Json, ssl: Json, now: string)
    requires "email" in cfg && cfg["email"].JObj?
    ensures var r := WithEmailConfig(cfg, EmailFields(server, port, address, password, ssl), now);
      && r.Keys == cfg.Keys + {"last_updated"}
      && r["last_updated"] == JStr(now)
      && (forall k :: k in cfg && k != "email" && k != "last_updated" ==> r[k] == cfg[k])
      && r["email"].JObj?
      && r["email"].fields.Keys == cfg["email"].fields.Keys + EmailKeys
      && Lookup(r, "email", "server") == Ok(server) && Lookup(r, "email", "port") == Ok(port)
      && Lookup(r, "email", "address") == Ok(address) && Lookup(r, "email", "password") == Ok(password)
      && Lookup(r, "email", "ssl") == Ok(ssl)
      && (forall k :: k in cfg["email"].fields && k !in EmailKeys ==>
            r["email"].fields[k] == cfg["email"].fields[k])
  {
  }

  class ConfigLoader {
    /** `_config`, the decoded document. */
    var config: map<string, Json>

    constructor (doc: map<string, Json>)
      ensures config == doc
    {
      config := doc;
    }

    /** `_validate_config`: the first required section that is missing, or
        `None` when all are present. */
    method ValidateConfig() returns (missing: Option<string>)
      ensures missing.None? <==> forall i :: 0 <= i < |RequiredKeys| ==> RequiredKeys[i] in config
      ensures missing.Some? ==>
        exists i :: && 0 <= i < |RequiredKeys| && RequiredKeys[i] == missing.value
                    && missing.value !in config && (forall j :: 0 <= j < i ==> RequiredKeys[j] in config)
    {
      var i := 0;
      while i < |RequiredKeys|
        invariant 0 <= i <= |RequiredKeys|
        invariant forall j :: 0 <= j < i ==> RequiredKeys[j] in config
      {
        if RequiredKeys[i] !in config {
          return Some(RequiredKeys[i]);
        }
        i := i + 1;
      }
      missing := None;
    }

    /** What `_load_config` does once the file is read and decoded: the
        document is kept even when its validation then fails. */
    method Load(doc: map<string, Json>) returns (missing: Option<string>)
      modifies this
      ensures config == doc
      ensures missing.None? <==> forall i :: 0 <= i < |RequiredKeys| ==> RequiredKeys[i] in doc
    {
      config := doc;
      missing := ValidateConfig();
    }

    /** `save_config`: `last_updated` is stamped in memory before the write,
        so it stays even when the write fails. */
    method SaveConfig(now: string, writeOk: bool) returns (ok: bool)
      modifies this
      ensures config == old(config)["last_updated" := JStr(now)]
      ensures ok == writeOk
    {
      config := config["last_updated" := JStr(now)];
      ok := writeOk;
    }

    /** `update_email_config`: without an `email` object the first assignment
        raises and nothing changes. */
    method UpdateEmailConfig(server: Json, port: Json, address: Json, password: Json, ssl: Json,
                             now: string, writeOk: bool) returns (ok: bool)
      modifies this
      ensures "email" in old(config) && old(config)["email"].JObj? ==>
        config == WithEmailConfig(old(config), EmailFields(server, port, address, password, ssl), now)
        && ok == writeOk
      ensures !("email" in old(config) && old(config)["email"].JObj?) ==> config == old(config) && !ok
    {
      if "email" !in config || !config["email"].JObj? {
        return false;
      }
      var email := config["email"].fields;
      email := email["server" := server];
      email := email["port" := port];
      email := email["address" := address];
      email := email["password" := password];
      email := email["ssl" := ssl];
      AssignFive(config["email"].fields, server, port, address, password, ssl);
      config := config["email" := JObj(email)];
      ok := SaveConfig(now, writeOk);
    }

    /** `get_all_config`: the document as it stands. The source's copy is
        shallow, so its sections are the stored ones; a caller that mutates
        a section changes the stored document, which the model states where
        it happens (`Hub.MergeSection` writes back into `config`). */
    method GetAllConfig() returns (r: map<string, Json>)
      ensures r == config
    {
      r := config;
    }
  }
}
