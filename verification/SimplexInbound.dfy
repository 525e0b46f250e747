/** From a raw event of simplex-chat to the inbound queue: which items of it arrive. */
module SimplexInbound {
  import opened Common
  import opened Text
  import opened SimplexEvents
  import Simplex

  // ---------------------------------------------------------------- entries that raise

  /** Present, and nothing a field can be asked of. */
  ghost predicate NoObject(found: Option<Json>) {
    found.Some? && !found.value.JObj?
  }

  /** The same where an empty value counts as an empty object. */
  ghost predicate BadObject(found: Option<Json>) {
    found.Some? && Truthy(found.value) && !found.value.JObj?
  }

  ghost predicate BadText(text: Option<Json>, contact: Option<Json>, id: Option<Json>, meta: Option<Json>) {
    text.Some? && Truthy(text.value) &&
    (text.value.JStr? ==>
       && !Stripped(text.value.s, "")
       && (NoObject(contact) || (id.Some? && id.value != JNull && BadObject(meta))))
  }

  /** What makes handling an entry raise, read off its paths: an object that is none, on the
      way to a field that is asked for, or a text that is no string. */
  ghost predicate Malformed(entry: Json) {
    || !entry.JObj?
    || NoObject(Path(entry, ["chatInfo"]))
    || (Path(entry, ["chatInfo", "type"]) == Some(JStr("direct")) &&
        (|| NoObject(Path(entry, ["chatItem"]))
         || BadObject(Path(entry, ["chatItem", "chatDir"]))
         || (Path(entry, ["chatItem", "chatDir", "type"]) == Some(JStr("directRcv")) &&
             (|| BadObject(Path(entry, ["chatItem", "content"]))
              || BadObject(Path(entry, ["chatItem", "content", "msgContent"]))
              || (Path(entry, ["chatItem", "content", "msgContent", "type"]) == Some(JStr("text")) &&
                  BadText(Path(entry, ["chatItem", "content", "msgContent", "text"]),
                          Path(entry, ["chatInfo", "contact"]),
                          Path(entry, ["chatInfo", "contact", "contactId"]),
                          Path(entry, ["chatItem", "meta"])))))))
  }

  lemma TextRaises(contact: Json, content: Json, meta: Json)
    ensures EmitText(contact, content, meta) == Raises <==>
              (!content.JObj?
               || (Path(content, ["type"]) == Some(JStr("text")) &&
                   BadText(Path(content, ["text"]), Some(contact), Path(contact, ["contactId"]), Some(meta))))
  {
    Path1(content, "type");
    Path1(content, "text");
    Path1(contact, "contactId");
    if content.JObj? && "text" in content.fields && content.fields["text"].JStr? {
      StripMeaning(content.fields["text"].s, "");
    }
  }

  /** A field of an object that may be missing or empty. */
  lemma FieldPath(j: Json, a: string, b: string)
    requires j.JObj?
    ensures Path(j, [a, b]) == if OrEmpty(Get(j, a, JNull).value).JObj?
                               then Path(OrEmpty(Get(j, a, JNull).value), [b]) else None
    ensures BadObject(Path(j, [a])) <==> !OrEmpty(Get(j, a, JNull).value).JObj?
  {
    Path1(j, a);
    Path2(j, a, b);
    Path1(OrEmpty(Get(j, a, JNull).value), b);
    Path1(Get(j, a, JNull).value, b);
  }

  lemma ItemRaises(contact: Json, item: Json)
    ensures EmitItem(contact, item) == Raises <==>
              (!item.JObj?
               || BadObject(Path(item, ["chatDir"]))
               || (Path(item, ["chatDir", "type"]) == Some(JStr("directRcv")) &&
                   (|| BadObject(Path(item, ["content"]))
                    || BadObject(Path(item, ["content", "msgContent"]))
                    || (Path(item, ["content", "msgContent", "type"]) == Some(JStr("text")) &&
                        BadText(Path(item, ["content", "msgContent", "text"]),
                                Some(contact), Path(contact, ["contactId"]), Path(item, ["meta"]))))))
  {
    if item.JObj? {
      FieldPath(item, "chatDir", "type");
      Path1(OrEmpty(Get(item, "chatDir", JNull).value), "type");
      FieldPath(item, "content", "msgContent");
      ContentPath(item, "type");
      ContentPath(item, "text");
      Path1(item, "meta");
      var holder := OrEmpty(Get(item, "content", JNull).value);
      if holder.JObj? {
        FieldPath(holder, "msgContent", "type");
        TextRaises(contact, OrEmpty(Get(holder, "msgContent", JNull).value), Get(item, "meta", JNull).value);
      }
    }
  }

  /** Handling an entry raises exactly when it is malformed. */
  lemma RaisesIff(entry: Json)
    ensures Emit(entry) == Raises <==> Malformed(entry)
  {
    if entry.JObj? {
      Path1(entry, "chatInfo");
      Path1(entry, "chatItem");
      Path2(entry, "chatInfo", "type");
      Path2(entry, "chatInfo", "contact");
      Path3(entry, "chatInfo", "contact", "contactId");
      var info := Get(entry, "chatInfo", EmptyObj).value;
      Path1(info, "type");
      Path1(info, "contact");
      Path2(info, "contact", "contactId");
      if info.JObj? {
        ItemPaths(entry);
        var contact := Get(info, "contact", EmptyObj).value;
        Path1(contact, "contactId");
        ItemRaises(contact, Get(entry, "chatItem", EmptyObj).value);
      }
    }
  }

  lemma ItemPaths(entry: Json)
    requires entry.JObj?
    ensures var item := Get(entry, "chatItem", EmptyObj).value;
            && Path(entry, ["chatItem", "chatDir"]) == Path(item, ["chatDir"])
            && Path(entry, ["chatItem", "chatDir", "type"]) == Path(item, ["chatDir", "type"])
            && Path(entry, ["chatItem", "content"]) == Path(item, ["content"])
            && Path(entry, ["chatItem", "content", "msgContent"]) == Path(item, ["content", "msgContent"])
            && (forall key ::
                  Path(entry, ["chatItem", "content", "msgContent", key]) == Path(item, ["content", "msgContent", key]))
            && Path(entry, ["chatItem", "meta"]) == Path(item, ["meta"])
  {
    var item := Get(entry, "chatItem", EmptyObj).value;
    Path2(entry, "chatItem", "chatDir");
    Path3(entry, "chatItem", "chatDir", "type");
    Path2(entry, "chatItem", "content");
    Path3(entry, "chatItem", "content", "msgContent");
    forall key {
      Path4(entry, "chatItem", "content", "msgContent", key);
    }
    Path2(entry, "chatItem", "meta");
    Path1(item, "chatDir");
    Path2(item, "chatDir", "type");
    Path1(item, "content");
    Path2(item, "content", "msgContent");
    Path1(item, "meta");
  }

  // ---------------------------------------------------------------- all the messages of an event

  /** `out` holds one message for each item that is a received one-to-one text, in the order
      of the items, and nothing else. */
  ghost predicate TextsOf(items: seq<Json>, out: seq<Inbound>)
    decreases |items|
  {
    if items == [] then out == []
    else if exists m :: ReceivedDirectText(items[0], m) then
      out != [] && ReceivedDirectText(items[0], out[0]) && TextsOf(items[1..], out[1..])
    else TextsOf(items[1..], out)
  }

  /** The items up to the first that is malformed. */
  ghost function Handled(items: seq<Json>): seq<Json>
    decreases |items|
  {
    if items == [] || Malformed(items[0]) then [] else [items[0]] + Handled(items[1..])
  }

  lemma {:induction false} EmittedIsComplete(items: seq<Json>)
    ensures TextsOf(Handled(items), Emitted(items))
    decreases |items|
  {
    if items != [] {
      RaisesIff(items[0]);
      EmittedIsComplete(items[1..]);
      var rest := Handled(items[1..]);
      assert ([items[0]] + rest)[1..] == rest;
      match Emit(items[0])
      case Raises =>
      case Nothing =>
        forall m
          ensures !ReceivedDirectText(items[0], m)
        {
          ForwardsIff(items[0], m);
        }
      case Forward(m) => ForwardsIff(items[0], m);
    }
  }

  /** An event is its reply's "Right" field, if there is one. */
  ghost function EventOf(resp: Json): Json {
    var inner := Path(resp, ["Right"]);
    if inner.Some? then inner.value else resp
  }

  ghost predicate HasType(event: Json, kind: string) {
    Path(event, ["type"]) == Some(JStr(kind))
  }

  lemma EventShape(resp: Json)
    ensures UnwrapEvent(resp) == if EventOf(resp).JObj? || Path(resp, ["Right"]).Some? then EventOf(resp) else EmptyObj
  {
    Path1(resp, "Right");
  }

  /** The items of an event: none unless it is of one of the two types. */
  lemma EventItems(resp: Json)
    ensures var event, items := EventOf(resp), Entries(UnwrapEvent(resp));
            && (HasType(event, "newChatItems") ==>
                  match Path(event, ["chatItems"])
                  case Some(JArr(all)) => items == all
                  case _ => items == [])
            && (HasType(event, "newChatItem") ==>
                  items == [if Path(event, ["chatItem"]).Some? then Path(event, ["chatItem"]).value else EmptyObj])
            && (!HasType(event, "newChatItems") && !HasType(event, "newChatItem") ==> items == [])
  {
    var event := EventOf(resp);
    EventShape(resp);
    Path1(event, "type");
    Path1(event, "chatItems");
    Path1(event, "chatItem");
  }

  /** What an event brings: if it has several items, the received one-to-one texts among
      them, in order, up to the first malformed item; if it has one, that item's text;
      otherwise nothing. */
  ghost predicate Brings(event: Json, out: seq<Inbound>) {
    if HasType(event, "newChatItems") then
      match Path(event, ["chatItems"])
      case Some(JArr(items)) => TextsOf(Handled(items), out)
      case _ => out == []
    else if HasType(event, "newChatItem") then
      match Path(event, ["chatItem"])
      case Some(item) => TextsOf(Handled([item]), out)
      case None => out == []
    else out == []
  }

  lemma EventBrings(resp: Json)
    ensures Brings(EventOf(resp), EventMessages(resp))
  {
    EventItems(resp);
    EmittedIsComplete(Entries(UnwrapEvent(resp)));
    EmptyItem();
  }

  /** Every text arrives: a reply that answers no pending command adds to the inbound queue
      exactly what its event brings. */
  lemma EveryTextArrives(s: Simplex.State, corrId: Option<string>, resp: Json)
    requires corrId.Some? ==> corrId.value !in s.pending
    ensures var now := Simplex.Step(s, Simplex.Dispatch(corrId, resp)).inbound;
            s.inbound <= now && Brings(EventOf(resp), now[|s.inbound|..])
  {
    var added := EventMessages(resp);
    EventBrings(resp);
    assert (s.inbound + added)[|s.inbound|..] == added;
  }

  lemma EmptyItem()
    ensures Emitted([EmptyObj]) == []
  {
    assert Emit(EmptyObj) == Nothing;
    assert [EmptyObj][1..] == [];
  }
}
