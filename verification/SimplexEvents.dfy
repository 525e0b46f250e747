/** How a SimpleX websocket payload becomes inbound messages. */
module SimplexEvents {
  import opened Common
  import opened Text

  datatype Json =
    | JNull
    | JBool(b: bool)
    | JNum(n: int)
    | JStr(s: string)
    | JArr(items: seq<Json>)
    | JObj(fields: map<string, Json>)

  const EmptyObj := JObj(map[])

  /** `j.get(key, default)`; anything but an object raises. */
  function Get(j: Json, key: string, default: Json): Option<Json> {
    if !j.JObj? then None else if key in j.fields then Some(j.fields[key]) else Some(default)
  }

  /** Python's truth value. */
  predicate Truthy(j: Json) {
    match j
    case JNull => false
    case JBool(b) => b
    case JNum(n) => n != 0
    case JStr(s) => s != ""
    case JArr(items) => items != []
    case JObj(fields) => fields != map[]
  }

  function OrEmpty(j: Json): Json {
    if Truthy(j) then j else EmptyObj
  }

  /** What the receiver consumes: the contact the message came from and its text. */
  datatype Inbound = Inbound(source: Json, text: string)

  datatype Emission = Nothing | Forward(message: Inbound) | Raises

  /** `_emit_message`, statement by statement. */
  function Emit(entry: Json): Emission {
    match Get(entry, "chatInfo", EmptyObj)
    case None => Raises
    case Some(info) =>
      match Get(info, "type", JNull)
      case None => Raises
      case Some(kind) =>
        if kind != JStr("direct") then Nothing
        else
          var contact := Get(info, "contact", EmptyObj).value;
          var item := Get(entry, "chatItem", EmptyObj).value;
          EmitItem(contact, item)
  }

  function EmitItem(contact: Json, item: Json): Emission {
    match Get(item, "chatDir", JNull)
    case None => Raises
    case Some(dir) =>
      match Get(OrEmpty(dir), "type", JNull)
      case None => Raises
      case Some(direction) =>
        if direction != JStr("directRcv") then Nothing
        else
          match Get(OrEmpty(Get(item, "content", JNull).value), "msgContent", JNull)
          case None => Raises
          case Some(content) => EmitText(contact, OrEmpty(content), Get(item, "meta", JNull).value)
  }

  /** The message is only put together once its item id is read from `meta`. */
  function EmitText(contact: Json, content: Json, meta: Json): Emission {
    match Get(content, "type", JNull)
    case None => Raises
    case Some(kind) =>
      if kind != JStr("text") then Nothing
      else
        var raw := Get(content, "text", JNull).value;
        if Truthy(raw) && !raw.JStr? then Raises
        else
          var text := if Truthy(raw) then Strip(raw.s) else "";
          if text == "" then Nothing
          else
            match Get(contact, "contactId", JNull)
            case None => Raises
            case Some(id) =>
              if id == JNull then Nothing
              else if !OrEmpty(meta).JObj? then Raises
              else Forward(Inbound(id, text))
  }

  // ---------------------------------------------------------------- what it forwards

  /** Follow a path of keys through nested objects. */
  function Path(j: Json, keys: seq<string>): Option<Json>
    decreases |keys|
  {
    if keys == [] then Some(j)
    else if j.JObj? && keys[0] in j.fields then Path(j.fields[keys[0]], keys[1..])
    else None
  }

  /** A received one-to-one text item with a contact and some visible text. */
  ghost predicate ReceivedDirectText(entry: Json, message: Inbound) {
    && Path(entry, ["chatInfo", "type"]) == Some(JStr("direct"))
    && Path(entry, ["chatItem", "chatDir", "type"]) == Some(JStr("directRcv"))
    && Path(entry, ["chatItem", "content", "msgContent", "type"]) == Some(JStr("text"))
    && Path(entry, ["chatInfo", "contact", "contactId"]) == Some(message.source)
    && message.source != JNull
    && message.text != ""
    && UsableMeta(Path(entry, ["chatItem", "meta"]))
    && exists raw :: Path(entry, ["chatItem", "content", "msgContent", "text"]) == Some(JStr(raw))
         && Stripped(raw, message.text)
  }

  /** An item id can be asked of it, if only in vain. */
  ghost predicate UsableMeta(meta: Option<Json>) {
    meta.None? || meta.value.JObj? || !Truthy(meta.value)
  }

  lemma Path1(j: Json, a: string)
    ensures Path(j, [a]) == if j.JObj? && a in j.fields then Some(j.fields[a]) else None
  {
    assert [a][1..] == [];
  }

  lemma Path2(j: Json, a: string, b: string)
    ensures Path(j, [a, b]) == if j.JObj? && a in j.fields then Path(j.fields[a], [b]) else None
  {
    assert [a, b][1..] == [b];
  }

  lemma Path3(j: Json, a: string, b: string, c: string)
    ensures Path(j, [a, b, c]) == if j.JObj? && a in j.fields then Path(j.fields[a], [b, c]) else None
  {
    assert [a, b, c][1..] == [b, c];
  }

  lemma Path4(j: Json, a: string, b: string, c: string, d: string)
    ensures Path(j, [a, b, c, d]) == if j.JObj? && a in j.fields then Path(j.fields[a], [b, c, d]) else None
  {
    assert [a, b, c, d][1..] == [b, c, d];
  }

  lemma TextForwards(contact: Json, content: Json, meta: Json, message: Inbound)
    ensures EmitText(contact, content, meta) == Forward(message) <==>
              && OrEmpty(meta).JObj?
              && Path(content, ["type"]) == Some(JStr("text"))
              && Path(contact, ["contactId"]) == Some(message.source)
              && message.source != JNull && message.text != ""
              && exists raw :: Path(content, ["text"]) == Some(JStr(raw)) && message.text == Strip(raw)
  {
    Path1(content, "type");
    Path1(content, "text");
    Path1(contact, "contactId");
  }

  lemma ItemForwards(contact: Json, item: Json, message: Inbound)
    ensures EmitItem(contact, item) == Forward(message) <==>
              && Path(item, ["chatDir", "type"]) == Some(JStr("directRcv"))
              && Path(item, ["content", "msgContent", "type"]) == Some(JStr("text"))
              && Path(contact, ["contactId"]) == Some(message.source)
              && message.source != JNull && message.text != ""
              && UsableMeta(Path(item, ["meta"]))
              && exists raw :: Path(item, ["content", "msgContent", "text"]) == Some(JStr(raw))
                   && message.text == Strip(raw)
  {
    DirectionPath(item);
    Path1(item, "meta");
    ContentPath(item, "type");
    ContentPath(item, "text");
    if item.JObj? {
      Path1(OrEmpty(Get(item, "chatDir", JNull).value), "type");
      var holder := OrEmpty(Get(item, "content", JNull).value);
      if holder.JObj? {
        TextForwards(contact, OrEmpty(Get(holder, "msgContent", JNull).value), Get(item, "meta", JNull).value, message);
      }
    }
  }

  /** A missing or falsy object on the way has no fields. */
  lemma DirectionPath(item: Json)
    ensures Path(item, ["chatDir", "type"])
              == if item.JObj? then Path(OrEmpty(Get(item, "chatDir", JNull).value), ["type"]) else None
  {
    Path2(item, "chatDir", "type");
    if item.JObj? {
      var dir := Get(item, "chatDir", JNull).value;
      Path1(dir, "type");
      Path1(OrEmpty(dir), "type");
    }
  }

  lemma ContentPath(item: Json, key: string)
    ensures Path(item, ["content", "msgContent", key])
              == if item.JObj? && OrEmpty(Get(item, "content", JNull).value).JObj?
                 then Path(OrEmpty(Get(OrEmpty(Get(item, "content", JNull).value), "msgContent", JNull).value), [key])
                 else None
  {
    Path3(item, "content", "msgContent", key);
    if item.JObj? {
      var holder := Get(item, "content", JNull).value;
      Path2(holder, "msgContent", key);
      if OrEmpty(holder).JObj? {
        var content := Get(OrEmpty(holder), "msgContent", JNull).value;
        Path1(content, key);
        Path1(OrEmpty(content), key);
      }
    }
  }

  /** An item is forwarded exactly when it is a received one-to-one text, and then with
      that contact and that text. */
  lemma ForwardsIff(entry: Json, message: Inbound)
    ensures Emit(entry) == Forward(message) <==> ReceivedDirectText(entry, message)
  {
    Path2(entry, "chatInfo", "type");
    Path3(entry, "chatItem", "chatDir", "type");
    Path4(entry, "chatItem", "content", "msgContent", "type");
    Path4(entry, "chatItem", "content", "msgContent", "text");
    Path3(entry, "chatInfo", "contact", "contactId");
    Path2(entry, "chatItem", "meta");
    if entry.JObj? {
      var info := Get(entry, "chatInfo", EmptyObj).value;
      Path1(info, "type");
      Path2(info, "contact", "contactId");
      if info.JObj? {
        var contact := Get(info, "contact", EmptyObj).value;
        var item := Get(entry, "chatItem", EmptyObj).value;
        Path1(contact, "contactId");
        ItemForwards(contact, item, message);
        Path2(item, "chatDir", "type");
        Path3(item, "content", "msgContent", "type");
        Path3(item, "content", "msgContent", "text");
      }
    }
    StrippedText(entry, message.text);
  }

  lemma StrippedText(entry: Json, text: string)
    ensures (exists raw :: Path(entry, ["chatItem", "content", "msgContent", "text"]) == Some(JStr(raw))
               && Stripped(raw, text))
            <==> (exists raw :: Path(entry, ["chatItem", "content", "msgContent", "text"]) == Some(JStr(raw))
                    && text == Strip(raw))
  {
    var found := Path(entry, ["chatItem", "content", "msgContent", "text"]);
    if found.Some? && found.value.JStr? {
      StripMeaning(found.value.s, text);
    }
  }

  // ---------------------------------------------------------------- a whole payload

  /** The entries of an event payload that `_handle_event` goes through. */
  function Entries(payload: Json): seq<Json> {
    if !payload.JObj? || "type" !in payload.fields then []
    else if payload.fields["type"] == JStr("newChatItems") then
      match Get(payload, "chatItems", JArr([]))
      case Some(JArr(items)) => items
      case _ => []
    else if payload.fields["type"] == JStr("newChatItem") then
      [Get(payload, "chatItem", EmptyObj).value]
    else []
  }

  /** Messages emitted until an entry raises, which ends the reader. */
  function Emitted(entries: seq<Json>): seq<Inbound>
    decreases |entries|
  {
    if entries == [] then []
    else
      match Emit(entries[0])
      case Nothing => Emitted(entries[1..])
      case Forward(message) => [message] + Emitted(entries[1..])
      case Raises => []
  }

  lemma EmittedFrom(entries: seq<Json>, i: nat)
    requires i < |entries|
    ensures Emitted(entries[i..])
              == match Emit(entries[i])
                 case Nothing => Emitted(entries[i + 1..])
                 case Forward(message) => [message] + Emitted(entries[i + 1..])
                 case Raises => []
  {
    assert entries[i..][0] == entries[i] && entries[i..][1..] == entries[i + 1..];
  }

  /** `_unwrap_event`. */
  function UnwrapEvent(resp: Json): Json {
    if resp.JObj? && "Right" in resp.fields then resp.fields["Right"]
    else if resp.JObj? then resp
    else EmptyObj
  }

  function EventMessages(resp: Json): seq<Inbound> {
    Emitted(Entries(UnwrapEvent(resp)))
  }

  ghost predicate Contains(entries: seq<Json>, message: Inbound) {
    exists i :: 0 <= i < |entries| && ReceivedDirectText(entries[i], message)
  }

  /** Everything an event puts on the inbound queue is a received one-to-one text it holds. */
  lemma {:induction false} EmittedAreReceivedTexts(entries: seq<Json>)
    ensures forall m :: m in Emitted(entries) ==> Contains(entries, m)
    decreases |entries|
  {
    if entries != [] {
      EmittedAreReceivedTexts(entries[1..]);
      forall m | m in Emitted(entries)
        ensures Contains(entries, m)
      {
        if Emit(entries[0]) == Forward(m) {
          ForwardsIff(entries[0], m);
          assert ReceivedDirectText(entries[0], m);
        } else {
          assert m in Emitted(entries[1..]);
          var i :| 0 <= i < |entries[1..]| && ReceivedDirectText(entries[1..][i], m);
          assert entries[i + 1] == entries[1..][i];
        }
      }
    }
  }
}
