/** The request and response schemas: strict base objects, open layers, and merge-based serializers. */
module Codec {
  import opened Prelude
  import opened JsonValues
  import opened Tables

  // ----- Base objects -----

  datatype BaseTemplate = BaseTemplate(name: string, messageText: Option<string>)

  datatype BaseRecipient = BaseRecipient(
    name: string,
    email: Option<string>,
    phoneNumber: Option<string>,
    telegramId: Option<Int64>)

  datatype BaseGroup = BaseGroup(name: string, templateId: Option<string>, active: bool)

  datatype User = User(name: string, password: string)

  const TEMPLATE_NAMES := {"name", "message_text"}
  const RECIPIENT_NAMES := {"name", "email", "phone_number", "telegram_id"}
  const GROUP_NAMES := {"name", "notification_template_id", "active"}
  const USER_NAMES := {"name", "password"}

  function ParseTemplate(j: Json): Parsed<BaseTemplate> {
    var _ :- CheckObjectOrNull(j);
    var name :- StringAt(j, "name");
    var messageText :- OptionalStringAt(j, "message_text");
    var _ :- NoAdditionalProperties(j, TEMPLATE_NAMES);
    Accept(BaseTemplate(name, messageText))
  }

  function ParseRecipient(j: Json): Parsed<BaseRecipient> {
    var _ :- CheckObjectOrNull(j);
    var name :- StringAt(j, "name");
    var email :- OptionalStringAt(j, "email");
    var phoneNumber :- OptionalStringAt(j, "phone_number");
    var telegramId :- OptionalInt64At(j, "telegram_id");
    var _ :- NoAdditionalProperties(j, RECIPIENT_NAMES);
    Accept(BaseRecipient(name, email, phoneNumber, telegramId))
  }

  function ParseGroup(j: Json): Parsed<BaseGroup> {
    var _ :- CheckObjectOrNull(j);
    var name :- StringAt(j, "name");
    var templateId :- OptionalStringAt(j, "notification_template_id");
    var active :- BoolAt(j, "active");
    var _ :- NoAdditionalProperties(j, GROUP_NAMES);
    Accept(BaseGroup(name, templateId, active))
  }

  function ParseUser(j: Json): Parsed<User> {
    var _ :- CheckObjectOrNull(j);
    var name :- StringAt(j, "name");
    var password :- StringAt(j, "password");
    var _ :- NoAdditionalProperties(j, USER_NAMES);
    Accept(User(name, password))
  }

  /** An empty optional is left out of the object. */
  function WithString(j: Json, key: string, value: Option<string>): Json
    requires j.Obj?
  {
    if value.Some? then With(j, key, Str(value.value)) else j
  }

  function SerializeTemplate(x: BaseTemplate): Json {
    WithString(Obj(map["name" := Str(x.name)]), "message_text", x.messageText)
  }

  function SerializeRecipient(x: BaseRecipient): Json {
    var named := Obj(map["name" := Str(x.name)]);
    var reachable := WithString(WithString(named, "email", x.email), "phone_number", x.phoneNumber);
    if x.telegramId.Some? then With(reachable, "telegram_id", Num(x.telegramId.value)) else reachable
  }

  function SerializeGroup(x: BaseGroup): Json {
    var named := Obj(map["name" := Str(x.name)]);
    With(WithString(named, "notification_template_id", x.templateId), "active", Bool(x.active))
  }

  function SerializeUser(x: User): Json {
    With(Obj(map["name" := Str(x.name)]), "password", Str(x.password))
  }

  // ----- What is accepted -----

  predicate StringMember(j: Json, key: string) {
    j.Obj? && key in j.fields && j.fields[key].Str?
  }

  predicate OptionalStringMember(j: Json, key: string) {
    j.Obj? && (key in j.fields ==> j.fields[key].Str? || j.fields[key].Null?)
  }

  predicate OptionalInt64Member(j: Json, key: string) {
    && j.Obj?
    && (key in j.fields ==>
          j.fields[key].Null? || (j.fields[key].Num? && INT64_MIN <= j.fields[key].number <= INT64_MAX))
  }

  /** A template is accepted exactly when it is an object with a string name, at most a string or null
      text, and nothing else. */
  lemma TemplateAccepted(j: Json)
    ensures ParseTemplate(j).Accept? <==>
      StringMember(j, "name") && OptionalStringMember(j, "message_text") && j.fields.Keys <= TEMPLATE_NAMES
  {
  }

  lemma RecipientAccepted(j: Json)
    ensures ParseRecipient(j).Accept? <==>
      && StringMember(j, "name") && OptionalStringMember(j, "email") && OptionalStringMember(j, "phone_number")
      && OptionalInt64Member(j, "telegram_id") && j.fields.Keys <= RECIPIENT_NAMES
  {
  }

  lemma GroupAccepted(j: Json)
    ensures ParseGroup(j).Accept? <==>
      && StringMember(j, "name") && OptionalStringMember(j, "notification_template_id")
      && "active" in j.fields && j.fields["active"].Bool? && j.fields.Keys <= GROUP_NAMES
  {
  }

  lemma UserAccepted(j: Json)
    ensures ParseUser(j).Accept? <==>
      StringMember(j, "name") && StringMember(j, "password") && j.fields.Keys <= USER_NAMES
  {
  }

  // ----- Which member is which field -----

  predicate Says(j: Json, key: string, value: string) {
    j.Obj? && key in j.fields && j.fields[key] == Str(value)
  }

  /** The member has this value; an empty optional is a missing member or an explicit null. */
  predicate SaysOptional(j: Json, key: string, value: Option<string>) {
    && j.Obj?
    && match value
       case Some(text) => key in j.fields && j.fields[key] == Str(text)
       case None => key !in j.fields || j.fields[key] == Null
  }

  predicate SaysOptionalNumber(j: Json, key: string, value: Option<Int64>) {
    && j.Obj?
    && match value
       case Some(number) => key in j.fields && j.fields[key] == Num(number)
       case None => key !in j.fields || j.fields[key] == Null
  }

  lemma TemplateMembers(j: Json, x: BaseTemplate)
    ensures ParseTemplate(j) == Accept(x) <==>
      && Says(j, "name", x.name) && SaysOptional(j, "message_text", x.messageText)
      && j.fields.Keys <= {"name", "message_text"}
  {
  }

  lemma RecipientMembers(j: Json, x: BaseRecipient)
    ensures ParseRecipient(j) == Accept(x) <==>
      && Says(j, "name", x.name) && SaysOptional(j, "email", x.email)
      && SaysOptional(j, "phone_number", x.phoneNumber) && SaysOptionalNumber(j, "telegram_id", x.telegramId)
      && j.fields.Keys <= {"name", "email", "phone_number", "telegram_id"}
  {
  }

  lemma GroupMembers(j: Json, x: BaseGroup)
    ensures ParseGroup(j) == Accept(x) <==>
      && Says(j, "name", x.name) && SaysOptional(j, "notification_template_id", x.templateId)
      && "active" in j.fields && j.fields["active"] == Bool(x.active)
      && j.fields.Keys <= {"name", "notification_template_id", "active"}
  {
  }

  lemma UserMembers(j: Json, x: User)
    ensures ParseUser(j) == Accept(x) <==>
      Says(j, "name", x.name) && Says(j, "password", x.password) && j.fields.Keys <= {"name", "password"}
  {
  }

  /** What is serialized says the same, without nulls. */
  lemma SerializedMembers(t: BaseTemplate, r: BaseRecipient, g: BaseGroup, u: User)
    ensures Says(SerializeTemplate(t), "name", t.name)
      && SaysOptional(SerializeTemplate(t), "message_text", t.messageText)
    ensures Says(SerializeRecipient(r), "name", r.name) && SaysOptional(SerializeRecipient(r), "email", r.email)
      && SaysOptional(SerializeRecipient(r), "phone_number", r.phoneNumber)
      && SaysOptionalNumber(SerializeRecipient(r), "telegram_id", r.telegramId)
    ensures Says(SerializeGroup(g), "name", g.name)
      && SaysOptional(SerializeGroup(g), "notification_template_id", g.templateId)
      && "active" in SerializeGroup(g).fields && SerializeGroup(g).fields["active"] == Bool(g.active)
    ensures Says(SerializeUser(u), "name", u.name) && Says(SerializeUser(u), "password", u.password)
    ensures Null !in SerializeTemplate(t).fields.Values && Null !in SerializeRecipient(r).fields.Values
    ensures Null !in SerializeGroup(g).fields.Values && Null !in SerializeUser(u).fields.Values
  {
    TemplateRoundTrip(t);
    RecipientRoundTrip(r);
    GroupRoundTrip(g);
    UserRoundTrip(u);
    TemplateMembers(SerializeTemplate(t), t);
    RecipientMembers(SerializeRecipient(r), r);
    GroupMembers(SerializeGroup(g), g);
    UserMembers(SerializeUser(u), u);
  }

  // ----- Round trips of base objects -----

  lemma TemplateRoundTrip(x: BaseTemplate)
    ensures ParseTemplate(SerializeTemplate(x)) == Accept(x)
  {
  }

  lemma RecipientRoundTrip(x: BaseRecipient)
    ensures ParseRecipient(SerializeRecipient(x)) == Accept(x)
  {
  }

  lemma GroupRoundTrip(x: BaseGroup)
    ensures ParseGroup(SerializeGroup(x)) == Accept(x)
  {
  }

  lemma UserRoundTrip(x: User)
    ensures ParseUser(SerializeUser(x)) == Accept(x)
  {
  }

  // ----- Layers -----

  /** The parser and the serializer of one of the base objects. */
  datatype BaseCodec<!B> = BaseCodec(names: set<string>, parse: Json -> Parsed<B>, serialize: B -> Json)

  const TEMPLATE := BaseCodec(TEMPLATE_NAMES, ParseTemplate, SerializeTemplate)
  const RECIPIENT := BaseCodec(RECIPIENT_NAMES, ParseRecipient, SerializeRecipient)
  const GROUP := BaseCodec(GROUP_NAMES, ParseGroup, SerializeGroup)

  /** Whatever is accepted is a flat object of named members, and serializing it adds no member. */
  ghost predicate Strict<B(!new)>(codec: BaseCodec<B>) {
    && (forall j :: codec.parse(j).Accept? ==>
          && Flat(j) && j.fields.Keys <= codec.names
          && codec.serialize(codec.parse(j).value).Obj?
          && codec.serialize(codec.parse(j).value).fields.Keys <= j.fields.Keys)
    && (forall x :: Flat(codec.serialize(x)) && codec.serialize(x).fields.Keys <= codec.names)
  }

  lemma TemplateIsStrict()
    ensures Strict(TEMPLATE)
  {
  }

  lemma RecipientIsStrict()
    ensures Strict(RECIPIENT)
  {
  }

  lemma GroupIsStrict()
    ensures Strict(GROUP)
  {
  }

  /** What an open layer keeps besides its own member: null, or an object. */
  type Extra = j: Json | j.Null? || j.Obj? witness Null

  /** A layer with one required string member; everything else goes to extra. */
  datatype Layer = Layer(id: string, extra: Extra)

  datatype WithoutId<B> = WithoutId(base: B, extra: Extra)

  /** The base and the layer with master_id. */
  datatype Returned<B> = Returned(base: B, master: Layer)

  /** A draft, with draft_id, or a stored entity, with its own id. */
  datatype Identified<B> = Identified(returned: Returned<B>, own: Layer)

  function ParseLayer(j: Json, key: string): Parsed<Layer> {
    var _ :- CheckObjectOrNull(j);
    var id :- StringAt(j, key);
    Accept(Layer(id, AdditionalProperties(j, {key})))
  }

  function ParseWithoutId<B>(codec: BaseCodec<B>, j: Json): Parsed<WithoutId<B>> {
    var base :- codec.parse(j);
    var _ :- CheckObjectOrNull(j);
    Accept(WithoutId(base, AdditionalProperties(j, {})))
  }

  function ParseReturned<B>(codec: BaseCodec<B>, j: Json): Parsed<Returned<B>> {
    var base :- codec.parse(j);
    var master :- ParseLayer(j, "master_id");
    Accept(Returned(base, master))
  }

  function ParseIdentified<B>(codec: BaseCodec<B>, key: string, j: Json): Parsed<Identified<B>> {
    var returned :- ParseReturned(codec, j);
    var own :- ParseLayer(j, key);
    Accept(Identified(returned, own))
  }

  function SerializeLayer(x: Layer, key: string): Json {
    With(x.extra, key, Str(x.id))
  }

  function SerializeWithoutId<B>(codec: BaseCodec<B>, x: WithoutId<B>): Json {
    Merge(Merge(Obj(map[]), codec.serialize(x.base)), x.extra)
  }

  function SerializeReturned<B>(codec: BaseCodec<B>, x: Returned<B>): Json {
    Merge(Merge(Obj(map[]), codec.serialize(x.base)), SerializeLayer(x.master, "master_id"))
  }

  function SerializeIdentified<B>(codec: BaseCodec<B>, key: string, x: Identified<B>): Json {
    Merge(Merge(Obj(map[]), SerializeReturned(codec, x.returned)), SerializeLayer(x.own, key))
  }

  method BuildLayer(x: Layer, key: string) returns (j: Json)
    ensures j == SerializeLayer(x, key)
  {
    var builder := new ValueBuilder(x.extra);
    builder.Set(key, Str(x.id));
    return builder.value;
  }

  method BuildWithoutId<B>(codec: BaseCodec<B>, x: WithoutId<B>) returns (j: Json)
    ensures j == SerializeWithoutId(codec, x)
  {
    var builder := new ValueBuilder(Obj(map[]));
    builder.MergeIn(codec.serialize(x.base));
    builder.MergeIn(x.extra);
    return builder.value;
  }

  method BuildReturned<B>(codec: BaseCodec<B>, x: Returned<B>) returns (j: Json)
    ensures j == SerializeReturned(codec, x)
  {
    var builder := new ValueBuilder(Obj(map[]));
    builder.MergeIn(codec.serialize(x.base));
    var layer := BuildLayer(x.master, "master_id");
    builder.MergeIn(layer);
    return builder.value;
  }

  method BuildIdentified<B>(codec: BaseCodec<B>, key: string, x: Identified<B>) returns (j: Json)
    ensures j == SerializeIdentified(codec, key, x)
  {
    var builder := new ValueBuilder(Obj(map[]));
    var returned := BuildReturned(codec, x.returned);
    builder.MergeIn(returned);
    var layer := BuildLayer(x.own, key);
    builder.MergeIn(layer);
    return builder.value;
  }

  /** An accepted payload is reproduced exactly, explicit nulls included. */
  lemma PayloadRoundTrip<B(!new)>(codec: BaseCodec<B>, j: Json)
    requires Strict(codec) && ParseWithoutId(codec, j).Accept?
    ensures SerializeWithoutId(codec, ParseWithoutId(codec, j).value) == j
  {
    var base := codec.serialize(codec.parse(j).value);
    MergeFlat(Obj(map[]), base);
    assert map[] + base.fields == base.fields;
    assert j.fields - {} == j.fields;
    MergeFlat(base, j);
    assert base.fields + j.fields == j.fields;
  }

  /** The payload parser accepts what its base parser accepts. */
  lemma PayloadAccepted<B(!new)>(codec: BaseCodec<B>, j: Json)
    requires Strict(codec)
    ensures ParseWithoutId(codec, j).Accept? <==> codec.parse(j).Accept?
    ensures codec.parse(j).Accept? ==> ParseWithoutId(codec, j) == Accept(WithoutId(codec.parse(j).value, j))
  {
    if codec.parse(j).Accept? {
      assert j.fields - {} == j.fields;
    }
  }

  /** The response for an entity that a manager has made, with nothing extra: the members of the base,
      the master and the id. */
  lemma ResponseShape<B(!new)>(codec: BaseCodec<B>, key: string, base: B, master: string, id: string)
    requires Strict(codec)
    ensures SerializeIdentified(codec, key, Identified(Returned(base, Layer(master, Null)), Layer(id, Null))) ==
      Obj(codec.serialize(base).fields["master_id" := Str(master)][key := Str(id)])
  {
    var fields := codec.serialize(base).fields;
    MergeFlat(Obj(map[]), codec.serialize(base));
    assert map[] + fields == fields;
    MergeFlat(codec.serialize(base), Obj(map["master_id" := Str(master)]));
    var returned := fields["master_id" := Str(master)];
    assert fields + map["master_id" := Str(master)] == returned;
    MergeFlat(Obj(map[]), Obj(returned));
    assert map[] + returned == returned;
    MergeFlat(Obj(returned), Obj(map[key := Str(id)]));
    assert returned + map[key := Str(id)] == returned[key := Str(id)];
  }

  // ----- What no client can send -----

  /** The base object forbids the master_id that the layer requires: no JSON value at all is accepted. */
  lemma NothingIsReturned<B(!new)>(codec: BaseCodec<B>, key: string, j: Json)
    requires Strict(codec) && "master_id" !in codec.names
    ensures ParseReturned(codec, j).Reject?
    ensures ParseIdentified(codec, key, j).Reject?
  {
  }

  /** This goes for templates, recipients and groups, drafts as well as stored ones. */
  lemma NoResponseParses(key: string, j: Json)
    ensures ParseReturned(TEMPLATE, j).Reject? && ParseIdentified(TEMPLATE, key, j).Reject?
    ensures ParseReturned(RECIPIENT, j).Reject? && ParseIdentified(RECIPIENT, key, j).Reject?
    ensures ParseReturned(GROUP, j).Reject? && ParseIdentified(GROUP, key, j).Reject?
  {
    TemplateIsStrict();
    RecipientIsStrict();
    GroupIsStrict();
    NothingIsReturned(TEMPLATE, key, j);
    NothingIsReturned(RECIPIENT, key, j);
    NothingIsReturned(GROUP, key, j);
  }

  // ----- Notifications, batches and tokens -----

  datatype NotificationDocument = NotificationDocument(
    id: string,
    batchId: string,
    recipientId: string,
    groupId: string,
    kind: MessageType,
    created: string,
    completed: Option<string>)

  const NOTIFICATION_NAMES := {
    "notification_id", "master_id", "recipient_id", "group_id", "type", "creation_timestamp", "completion_timestamp"}

  function KindAt(j: Json, key: string): Parsed<MessageType> {
    var name :- StringAt(j, key);
    if name == "Telegram" then Accept(Telegram)
    else if name == "SMS" then Accept(Sms)
    else if name == "Mail" then Accept(Mail)
    else Reject(TypeMismatch(key))
  }

  lemma KindMember(j: Json, key: string, kind: MessageType)
    ensures KindAt(j, key) == Accept(kind) <==>
      match kind
      case Telegram => Says(j, key, "Telegram")
      case Sms => Says(j, key, "SMS")
      case Mail => Says(j, key, "Mail")
  {
  }

  function ParseNotification(j: Json): Parsed<NotificationDocument> {
    var _ :- CheckObjectOrNull(j);
    var id :- StringAt(j, "notification_id");
    var batchId :- StringAt(j, "batch_id");
    var recipientId :- StringAt(j, "recipient_id");
    var groupId :- StringAt(j, "group_id");
    var kind :- KindAt(j, "type");
    var created :- StringAt(j, "creation_timestamp");
    var completed :- OptionalStringAt(j, "completion_timestamp");
    var _ :- NoAdditionalProperties(j, NOTIFICATION_NAMES);
    Accept(NotificationDocument(id, batchId, recipientId, groupId, kind, created, completed))
  }

  /** batch_id is required, but it is not among the names that are allowed. */
  lemma NoNotificationParses(j: Json)
    ensures ParseNotification(j).Reject?
  {
  }

  datatype BatchDocument = BatchDocument(batchId: string, masterId: string)

  const BATCH_NAMES := {"batch_id", "master_id"}

  function ParseBatch(j: Json): Parsed<BatchDocument> {
    var _ :- CheckObjectOrNull(j);
    var batchId :- StringAt(j, "batch_id");
    var masterId :- StringAt(j, "master_id");
    var _ :- NoAdditionalProperties(j, BATCH_NAMES);
    Accept(BatchDocument(batchId, masterId))
  }

  /** The batch id is not written. */
  function SerializeBatch(x: BatchDocument): Json {
    Obj(map["master_id" := Str(x.masterId)])
  }

  /** A serialized batch is never accepted, although other objects are. */
  lemma NoSerializedBatchParses(x: BatchDocument)
    ensures ParseBatch(SerializeBatch(x)) == Reject(MissingMember("batch_id"))
    ensures ParseBatch(With(SerializeBatch(x), "batch_id", Str(x.batchId))) == Accept(x)
  {
  }

  datatype TokenPair = TokenPair(access: string, refresh: string)

  function ParseTokens(j: Json): Parsed<TokenPair> {
    var _ :- CheckObjectOrNull(j);
    var access :- StringAt(j, "access_token");
    var refresh :- StringAt(j, "refresh_token");
    var _ :- NoAdditionalProperties(j, USER_NAMES);
    Accept(TokenPair(access, refresh))
  }

  /** The names of a user, not of a token pair, are allowed: nothing is accepted. */
  lemma NoTokenPairParses(j: Json)
    ensures ParseTokens(j).Reject?
  {
  }
}
