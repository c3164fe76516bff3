/** The two records the stores hold. An e-mail always has the shape the
    poller gives it; an activity is an open JSON object, since
    `update_activity` merges arbitrary fields into it. */
module Records {
  import opened Base
  import opened Json

  /** One message as the poller builds it and the store keeps it. `savedAt`
      is the `saved_at` key, absent until the store stamps it. */
  datatype Email = Email(
    id: string,
    subject: string,
    sender: string,
    recipient: string,
    date: string,
    body: string,
    timestamp: string,
    unread: bool,
    savedAt: Option<string>)

  /** A scheduled activity: a JSON object with `id`, `title`, `description`,
      `created_at`, `scheduled_date` and, once updated, `updated_at`. */
  type Activity = map<string, Json>

  /** `activity.get('id')`: `None` when the key is absent. */
  function IdOf(a: Activity): Json {
    if "id" in a then a["id"] else JNull
  }

  /** `email.get('id') == v` for a JSON value `v`: a string id only equals a string. */
  predicate HasId(e: Email, v: Json) {
    v == JStr(e.id)
  }
}
