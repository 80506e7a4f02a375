/**
  The table of known remote calls: call type -> call name -> the parameter
  names a request for that call may carry. `key` is merged into every list.
 */
module CallRegistry {

  /** Call name -> the parameter names it accepts. */
  type CallTable = map<string, seq<string>>

  /** Call type -> its calls. */
  type Registry = map<string, CallTable>

  /** The parameter every request carries. */
  const RequiredKey: seq<string> := ["key"]

  /** The registry's shape: one table per call type. */
  function Assemble(users: CallTable, messages: CallTable, tags: CallTable, senders: CallTable,
                 urls: CallTable, templates: CallTable, webhooks: CallTable): Registry {
    map[
      "users" := users,
      "messages" := messages,
      "tags" := tags,
      "senders" := senders,
      "urls" := urls,
      "templates" := templates,
      "webhooks" := webhooks
    ]
  }

  /** The constant table the client builds on first use. */
  function KnownCalls(): (reg: Registry)
    ensures KeyFirstEverywhere(reg)
  {
    AssembledKeyFirst(UsersCalls(), MessagesCalls(), TagsCalls(), SendersCalls(), UrlsCalls(), TemplatesCalls(), WebhooksCalls());
    Assemble(UsersCalls(), MessagesCalls(), TagsCalls(), SendersCalls(), UrlsCalls(), TemplatesCalls(), WebhooksCalls())
  }

  // Each parameter list is RequiredKey merged with the call's own parameters
  // (array_merge_recursive of two lists concatenates them).

  function UsersCalls(): (calls: CallTable)
    ensures KeyFirst(calls)
  {
    map[
      "info" := RequiredKey,
      "ping" := RequiredKey,
      "senders" := RequiredKey,
      "disable-sender" := RequiredKey + ["domain"],
      "verify-sender" := RequiredKey + ["email"]
    ]
  }

  function MessagesCalls(): (calls: CallTable)
    ensures KeyFirst(calls)
  {
    map[
      "send" := RequiredKey + ["message"],
      "send-template" := RequiredKey + ["template_name", "template_content", "message"],
      "search" := RequiredKey + ["query", "date_from", "date_to", "tags", "senders", "limit"]
    ]
  }

  function TagsCalls(): (calls: CallTable)
    ensures KeyFirst(calls)
  {
    map[
      "list" := RequiredKey,
      "info" := RequiredKey + ["tag"],
      "time-series" := RequiredKey + ["tag"],
      "all-time-series" := RequiredKey
    ]
  }

  function SendersCalls(): (calls: CallTable)
    ensures KeyFirst(calls)
  {
    map[
      "list" := RequiredKey,
      "info" := RequiredKey + ["address"],
      "time-series" := RequiredKey + ["address"]
    ]
  }

  function UrlsCalls(): (calls: CallTable)
    ensures KeyFirst(calls)
  {
    map[
      "list" := RequiredKey,
      "search" := RequiredKey + ["q"],
      "time-series" := RequiredKey + ["url"]
    ]
  }

  function TemplatesCalls(): (calls: CallTable)
    ensures KeyFirst(calls)
  {
    map[
      "add" := RequiredKey + ["name", "code"],
      "info" := RequiredKey + ["name"],
      "update" := RequiredKey + ["name", "code"],
      "delete" := RequiredKey + ["name"],
      "list" := RequiredKey
    ]
  }

  function WebhooksCalls(): (calls: CallTable)
    ensures KeyFirst(calls)
  {
    map[
      "list" := RequiredKey,
      "add" := RequiredKey + ["url", "events"],
      "info" := RequiredKey + ["id"],
      "update" := RequiredKey + ["id", "url", "events"],
      "delete" := RequiredKey + ["id"]
    ]
  }

  /** A map has as many entries as it has keys. */
  lemma EntryCount<V>(m: map<string, V>)
    ensures |m| == |m.Keys|
  {
  }

  /** The seven type names are pairwise different. */
  lemma SevenNames()
    ensures |{"users", "messages", "tags", "senders", "urls", "templates", "webhooks"}| == 7
  {
  }

  /** Whatever the tables hold, the registry's keys are the seven names. */
  lemma AssembledKeys(users: CallTable, messages: CallTable, tags: CallTable, senders: CallTable,
                 urls: CallTable, templates: CallTable, webhooks: CallTable)
    ensures Assemble(users, messages, tags, senders, urls, templates, webhooks).Keys == {"users", "messages", "tags", "senders", "urls", "templates", "webhooks"}
  {
  }

  /** Each type name leads to its own table. */
  lemma AssembledTables(users: CallTable, messages: CallTable, tags: CallTable, senders: CallTable,
                 urls: CallTable, templates: CallTable, webhooks: CallTable)
    ensures Assemble(users, messages, tags, senders, urls, templates, webhooks)["users"] == users
    ensures Assemble(users, messages, tags, senders, urls, templates, webhooks)["messages"] == messages
    ensures Assemble(users, messages, tags, senders, urls, templates, webhooks)["tags"] == tags
    ensures Assemble(users, messages, tags, senders, urls, templates, webhooks)["senders"] == senders
    ensures Assemble(users, messages, tags, senders, urls, templates, webhooks)["urls"] == urls
    ensures Assemble(users, messages, tags, senders, urls, templates, webhooks)["templates"] == templates
    ensures Assemble(users, messages, tags, senders, urls, templates, webhooks)["webhooks"] == webhooks
  {
  }

  /** Seven call types, webhooks included. */
  lemma CallTypes()
    ensures KnownCalls().Keys == {"users", "messages", "tags", "senders", "urls", "templates", "webhooks"}
    ensures |KnownCalls()| == 7
  {
    AssembledKeys(UsersCalls(), MessagesCalls(), TagsCalls(), SendersCalls(), UrlsCalls(), TemplatesCalls(), WebhooksCalls());
    SevenNames();
    EntryCount(KnownCalls());
  }

  /** The calls under users. */
  lemma UsersCallCount()
    ensures KnownCalls()["users"].Keys == {"info", "ping", "senders", "disable-sender", "verify-sender"}
    ensures |KnownCalls()["users"]| == 5
  {
    AssembledTables(UsersCalls(), MessagesCalls(), TagsCalls(), SendersCalls(), UrlsCalls(), TemplatesCalls(), WebhooksCalls());
    UsersCallNames();
    EntryCount(UsersCalls());
  }

  /** The users table's call names. */
  lemma UsersCallNames()
    ensures UsersCalls().Keys == {"info", "ping", "senders", "disable-sender", "verify-sender"}
    ensures |{"info", "ping", "senders", "disable-sender", "verify-sender"}| == 5
  {
  }

  /** The calls under messages. */
  lemma MessagesCallCount()
    ensures KnownCalls()["messages"].Keys == {"send", "send-template", "search"}
    ensures |KnownCalls()["messages"]| == 3
  {
    AssembledTables(UsersCalls(), MessagesCalls(), TagsCalls(), SendersCalls(), UrlsCalls(), TemplatesCalls(), WebhooksCalls());
    MessagesCallNames();
    EntryCount(MessagesCalls());
  }

  /** The messages table's call names. */
  lemma MessagesCallNames()
    ensures MessagesCalls().Keys == {"send", "send-template", "search"}
    ensures |{"send", "send-template", "search"}| == 3
  {
  }

  /** The calls under tags. */
  lemma TagsCallCount()
    ensures KnownCalls()["tags"].Keys == {"list", "info", "time-series", "all-time-series"}
    ensures |KnownCalls()["tags"]| == 4
  {
    AssembledTables(UsersCalls(), MessagesCalls(), TagsCalls(), SendersCalls(), UrlsCalls(), TemplatesCalls(), WebhooksCalls());
    TagsCallNames();
    EntryCount(TagsCalls());
  }

  /** The tags table's call names. */
  lemma TagsCallNames()
    ensures TagsCalls().Keys == {"list", "info", "time-series", "all-time-series"}
    ensures |{"list", "info", "time-series", "all-time-series"}| == 4
  {
  }

  /** The calls under senders. */
  lemma SendersCallCount()
    ensures KnownCalls()["senders"].Keys == {"list", "info", "time-series"}
    ensures |KnownCalls()["senders"]| == 3
  {
    AssembledTables(UsersCalls(), MessagesCalls(), TagsCalls(), SendersCalls(), UrlsCalls(), TemplatesCalls(), WebhooksCalls());
    SendersCallNames();
    EntryCount(SendersCalls());
  }

  /** The senders table's call names. */
  lemma SendersCallNames()
    ensures SendersCalls().Keys == {"list", "info", "time-series"}
    ensures |{"list", "info", "time-series"}| == 3
  {
  }

  /** The calls under urls. */
  lemma UrlsCallCount()
    ensures KnownCalls()["urls"].Keys == {"list", "search", "time-series"}
    ensures |KnownCalls()["urls"]| == 3
  {
    AssembledTables(UsersCalls(), MessagesCalls(), TagsCalls(), SendersCalls(), UrlsCalls(), TemplatesCalls(), WebhooksCalls());
    UrlsCallNames();
    EntryCount(UrlsCalls());
  }

  /** The urls table's call names. */
  lemma UrlsCallNames()
    ensures UrlsCalls().Keys == {"list", "search", "time-series"}
    ensures |{"list", "search", "time-series"}| == 3
  {
  }

  /** The calls under templates. */
  lemma TemplatesCallCount()
    ensures KnownCalls()["templates"].Keys == {"add", "info", "update", "delete", "list"}
    ensures |KnownCalls()["templates"]| == 5
  {
    AssembledTables(UsersCalls(), MessagesCalls(), TagsCalls(), SendersCalls(), UrlsCalls(), TemplatesCalls(), WebhooksCalls());
    TemplatesCallNames();
    EntryCount(TemplatesCalls());
  }

  /** The templates table's call names. */
  lemma TemplatesCallNames()
    ensures TemplatesCalls().Keys == {"add", "info", "update", "delete", "list"}
    ensures |{"add", "info", "update", "delete", "list"}| == 5
  {
  }

  /** The calls under webhooks. */
  lemma WebhooksCallCount()
    ensures KnownCalls()["webhooks"].Keys == {"list", "add", "info", "update", "delete"}
    ensures |KnownCalls()["webhooks"]| == 5
  {
    AssembledTables(UsersCalls(), MessagesCalls(), TagsCalls(), SendersCalls(), UrlsCalls(), TemplatesCalls(), WebhooksCalls());
    WebhooksCallNames();
    EntryCount(WebhooksCalls());
  }

  /** The webhooks table's call names. */
  lemma WebhooksCallNames()
    ensures WebhooksCalls().Keys == {"list", "add", "info", "update", "delete"}
    ensures |{"list", "add", "info", "update", "delete"}| == 5
  {
  }

  /** A name outside the seven is not a call type. */
  lemma UnknownCallType(t: string)
    requires t !in {"users", "messages", "tags", "senders", "urls", "templates", "webhooks"}
    ensures t !in KnownCalls()
  {
    AssembledKeys(UsersCalls(), MessagesCalls(), TagsCalls(), SendersCalls(), UrlsCalls(), TemplatesCalls(), WebhooksCalls());
  }

  /** Every call of a table lists `key` first. */
  ghost predicate KeyFirst(calls: CallTable) {
    forall c | c in calls :: |calls[c]| > 0 && calls[c][0] == "key"
  }

  /** Every call of every type lists `key` first. */
  ghost predicate KeyFirstEverywhere(reg: Registry) {
    forall t | t in reg :: KeyFirst(reg[t])
  }

  /** Tables that each list `key` first make a registry that does. */
  lemma AssembledKeyFirst(users: CallTable, messages: CallTable, tags: CallTable, senders: CallTable,
                 urls: CallTable, templates: CallTable, webhooks: CallTable)
    requires KeyFirst(users) && KeyFirst(messages) && KeyFirst(tags) && KeyFirst(senders) && KeyFirst(urls) && KeyFirst(templates) && KeyFirst(webhooks)
    ensures KeyFirstEverywhere(Assemble(users, messages, tags, senders, urls, templates, webhooks))
  {
  }

  /** Every call's parameter list starts with `key`. */
  lemma KeyAlwaysAllowed(t: string, c: string)
    requires t in KnownCalls() && c in KnownCalls()[t]
    ensures |KnownCalls()[t][c]| > 0 && KnownCalls()[t][c][0] == "key"
    ensures "key" in KnownCalls()[t][c]
  {
  }
}
