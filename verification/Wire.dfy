/** The messages of the two contracts and the untagged decoding of `ExecuteMsg` on both sides. */
module Wire {
  import opened Types

  /** Any JSON value but null: what an optional block carries when it is present. */
  type Payload = j: Json | j != Null witness Bool(false)

  datatype Level = Normal | StopTransactions | StopAll

  datatype PurchaseMsg = PurchaseMint

  /** `Migrate` stands for the variants of the library's enum that both contracts refuse. */
  datatype MigratableMsg =
    | Subscribe(address: string, codeHash: string)
    | MigrateRequest(content: Payload)

  datatype ListenerMsg = MigrationComplete(to: ContractInfo, data: Option<string>)

  datatype BaseMsg =
    | MintNft(
        tokenId: Option<string>,
        owner: Option<string>,
        publicMetadata: Option<Metadata>,
        privateMetadata: Option<Metadata>,
        serialNumber: Option<Payload>,
        royaltyInfo: Option<Payload>,
        transferable: Option<bool>,
        memo: Option<string>,
        padding: Option<string>)
    | ChangeAdmin(address: string, padding: Option<string>)
    | AddMinters(minters: seq<string>, padding: Option<string>)
    | RemoveMinters(minters: seq<string>, padding: Option<string>)
    | SetMinters(minters: seq<string>, padding: Option<string>)
    | SetContractStatus(level: Level, padding: Option<string>)
    | OtherBase(tag: string, content: Payload)

  datatype DealerExecuteMsg =
    | DealerBase(purchase: PurchaseMsg)
    | DealerMigrate(migratable: MigratableMsg)
    | DealerListener(listener: ListenerMsg)

  datatype ChildExecuteMsg =
    | ChildBase(base: BaseMsg)
    | ChildMigrate(migratable: MigratableMsg)
    | ChildListener(listener: ListenerMsg)

  const PURCHASE_MINT := "purchase_mint"
  const SUBSCRIBE := "subscribe_to_migration_complete_event"
  const MIGRATE := "migrate"
  const MIGRATION_COMPLETE := "migration_complete_notification"
  const MINT_NFT := "mint_nft"
  const CHANGE_ADMIN := "change_admin"
  const ADD_MINTERS := "add_minters"
  const REMOVE_MINTERS := "remove_minters"
  const SET_MINTERS := "set_minters"
  const SET_CONTRACT_STATUS := "set_contract_status"

  /** Tags of the SNIP-721 messages whose handlers are not part of this model. */
  const OTHER_BASE_TAGS: set<string> := {
    "batch_mint_nft", "mint_nft_clones", "set_metadata", "set_royalty_info", "reveal",
    "make_ownership_private", "set_global_approval", "set_whitelisted_approval", "approve", "revoke",
    "approve_all", "revoke_all", "transfer_nft", "batch_transfer_nft", "send_nft", "batch_send_nft",
    "burn_nft", "batch_burn_nft", "register_receive_nft", "create_viewing_key", "set_viewing_key",
    "revoke_permit"
  }

  const MODELLED_BASE_TAGS: set<string> := {
    MINT_NFT, CHANGE_ADMIN, ADD_MINTERS, REMOVE_MINTERS, SET_MINTERS, SET_CONTRACT_STATUS
  }

  // ---------- encoding of the parts ----------

  function Tagged(tag: string, content: Json): Json {
    Obj(map[tag := content])
  }

  function EncodeOptString(s: Option<string>): Json {
    match s
    case None => Null
    case Some(v) => Str(v)
  }

  function EncodeOptBool(b: Option<bool>): Json {
    match b
    case None => Null
    case Some(v) => Bool(v)
  }

  function EncodeOptPayload(p: Option<Payload>): Json {
    match p
    case None => Null
    case Some(v) => v
  }

  function EncodeMetadata(m: Metadata): Json {
    Obj(map["token_uri" := EncodeOptString(m.tokenUri), "extension" := EncodeOptString(m.extension)])
  }

  function EncodeOptMetadata(m: Option<Metadata>): Json {
    match m
    case None => Null
    case Some(v) => EncodeMetadata(v)
  }

  function EncodeStrings(xs: seq<string>): Json {
    Arr(seq(|xs|, i requires 0 <= i < |xs| => Str(xs[i])))
  }

  function EncodeLevel(level: Level): Json {
    match level
    case Normal => Str("normal")
    case StopTransactions => Str("stop_transactions")
    case StopAll => Str("stop_all")
  }

  function EncodeInfo(info: ContractInfo): Json {
    Obj(map["address" := Str(info.address), "code_hash" := Str(info.codeHash)])
  }

  // ---------- encoding of the messages ----------

  function EncodePurchase(m: PurchaseMsg): Json {
    Tagged(PURCHASE_MINT, Obj(map[]))
  }

  function EncodeMigratable(m: MigratableMsg): Json {
    match m
    case Subscribe(address, codeHash) =>
      Tagged(SUBSCRIBE, Obj(map["address" := Str(address), "code_hash" := Str(codeHash)]))
    case MigrateRequest(content) =>
      Tagged(MIGRATE, content)
  }

  function EncodeListener(m: ListenerMsg): Json {
    Tagged(MIGRATION_COMPLETE, Obj(map["to" := EncodeInfo(m.to), "data" := EncodeOptString(m.data)]))
  }

  function EncodeMinters(tag: string, minters: seq<string>, padding: Option<string>): Json {
    Tagged(tag, Obj(map["minters" := EncodeStrings(minters), "padding" := EncodeOptString(padding)]))
  }

  function EncodeMint(m: BaseMsg): map<string, Json>
    requires m.MintNft?
  {
    map[
      "token_id" := EncodeOptString(m.tokenId),
      "owner" := EncodeOptString(m.owner),
      "public_metadata" := EncodeOptMetadata(m.publicMetadata),
      "private_metadata" := EncodeOptMetadata(m.privateMetadata),
      "serial_number" := EncodeOptPayload(m.serialNumber),
      "royalty_info" := EncodeOptPayload(m.royaltyInfo),
      "transferable" := EncodeOptBool(m.transferable),
      "memo" := EncodeOptString(m.memo),
      "padding" := EncodeOptString(m.padding)]
  }

  function EncodeBase(m: BaseMsg): Json {
    match m
    case MintNft(_, _, _, _, _, _, _, _, _) =>
      Tagged(MINT_NFT, Obj(EncodeMint(m)))
    case ChangeAdmin(address, padding) =>
      Tagged(CHANGE_ADMIN, Obj(map["address" := Str(address), "padding" := EncodeOptString(padding)]))
    case AddMinters(minters, padding) => EncodeMinters(ADD_MINTERS, minters, padding)
    case RemoveMinters(minters, padding) => EncodeMinters(REMOVE_MINTERS, minters, padding)
    case SetMinters(minters, padding) => EncodeMinters(SET_MINTERS, minters, padding)
    case SetContractStatus(level, padding) =>
      Tagged(SET_CONTRACT_STATUS,
             Obj(map["level" := EncodeLevel(level), "padding" := EncodeOptString(padding)]))
    case OtherBase(tag, content) =>
      Tagged(tag, content)
  }

  /** The derived `Serialize` of the untagged enums writes the inner message alone. */
  function EncodeDealer(m: DealerExecuteMsg): Json {
    match m
    case DealerBase(p) => EncodePurchase(p)
    case DealerMigrate(x) => EncodeMigratable(x)
    case DealerListener(l) => EncodeListener(l)
  }

  function EncodeChild(m: ChildExecuteMsg): Json {
    match m
    case ChildBase(b) => EncodeBase(b)
    case ChildMigrate(x) => EncodeMigratable(x)
    case ChildListener(l) => EncodeListener(l)
  }

  // ---------- decoding of the parts ----------

  function DecodeString(m: map<string, Json>, key: string): Result<string> {
    if key in m && m[key].Str? then Ok(m[key].s) else Err
  }

  /** An optional field may be missing or null. */
  function DecodeOptString(m: map<string, Json>, key: string): Result<Option<string>> {
    if key !in m || m[key].Null? then Ok(None)
    else if m[key].Str? then Ok(Some(m[key].s))
    else Err
  }

  function DecodeOptBool(m: map<string, Json>, key: string): Result<Option<bool>> {
    if key !in m || m[key].Null? then Ok(None)
    else if m[key].Bool? then Ok(Some(m[key].b))
    else Err
  }

  function DecodeOptPayload(m: map<string, Json>, key: string): Result<Option<Payload>> {
    if key !in m || m[key].Null? then Ok(None) else Ok(Some(m[key]))
  }

  function DecodeOptMetadata(m: map<string, Json>, key: string): Result<Option<Metadata>> {
    if key !in m || m[key].Null? then Ok(None)
    else if m[key].Obj? then
      var tokenUri :- DecodeOptString(m[key].fields, "token_uri");
      var extension :- DecodeOptString(m[key].fields, "extension");
      Ok(Some(Metadata(tokenUri, extension)))
    else Err
  }

  function DecodeStrings(m: map<string, Json>, key: string): Result<seq<string>> {
    if key in m && m[key].Arr? && forall i | 0 <= i < |m[key].items| :: m[key].items[i].Str? then
      var items := m[key].items;
      Ok(seq(|items|, i requires 0 <= i < |items| && items[i].Str? => items[i].s))
    else Err
  }

  function DecodeLevel(m: map<string, Json>, key: string): Result<Level> {
    if key !in m then Err
    else if m[key] == Str("normal") then Ok(Normal)
    else if m[key] == Str("stop_transactions") then Ok(StopTransactions)
    else if m[key] == Str("stop_all") then Ok(StopAll)
    else Err
  }

  /** `code_hash` has the empty string as its default. */
  function DecodeInfo(m: map<string, Json>, key: string): Result<ContractInfo> {
    if key in m && m[key].Obj? then
      var address :- DecodeString(m[key].fields, "address");
      if "code_hash" !in m[key].fields then Ok(ContractInfo(address, ""))
      else
        var codeHash :- DecodeString(m[key].fields, "code_hash");
        Ok(ContractInfo(address, codeHash))
    else Err
  }

  // ---------- decoding of the messages ----------

  /** An externally tagged enum value is an object with exactly one member. */
  predicate HasTag(j: Json, tag: string) {
    j.Obj? && j.fields.Keys == {tag}
  }

  /** The member list of a struct variant. */
  function Content(j: Json, tag: string): Result<map<string, Json>>
    requires HasTag(j, tag)
  {
    if j.fields[tag].Obj? then Ok(j.fields[tag].fields) else Err
  }

  function SoleTag(j: Json): Option<string> {
    if j.Obj? && exists k | k in j.fields.Keys :: j.fields.Keys == {k} then
      var k :| k in j.fields.Keys && j.fields.Keys == {k};
      Some(k)
    else None
  }

  function DecodePurchase(j: Json): Result<PurchaseMsg> {
    if HasTag(j, PURCHASE_MINT) then
      var _ :- Content(j, PURCHASE_MINT);
      Ok(PurchaseMint)
    else Err
  }

  function DecodeMigratable(j: Json): Result<MigratableMsg> {
    if HasTag(j, SUBSCRIBE) then
      var m :- Content(j, SUBSCRIBE);
      var address :- DecodeString(m, "address");
      var codeHash :- DecodeString(m, "code_hash");
      Ok(Subscribe(address, codeHash))
    else if HasTag(j, MIGRATE) && j.fields[MIGRATE] != Null then
      Ok(MigrateRequest(j.fields[MIGRATE]))
    else Err
  }

  function DecodeListener(j: Json): Result<ListenerMsg> {
    if HasTag(j, MIGRATION_COMPLETE) then
      var m :- Content(j, MIGRATION_COMPLETE);
      var to :- DecodeInfo(m, "to");
      var data :- DecodeOptString(m, "data");
      Ok(MigrationComplete(to, data))
    else Err
  }

  function DecodeMint(m: map<string, Json>): Result<BaseMsg> {
    var tokenId :- DecodeOptString(m, "token_id");
    var owner :- DecodeOptString(m, "owner");
    var publicMetadata :- DecodeOptMetadata(m, "public_metadata");
    var privateMetadata :- DecodeOptMetadata(m, "private_metadata");
    var serialNumber :- DecodeOptPayload(m, "serial_number");
    var royaltyInfo :- DecodeOptPayload(m, "royalty_info");
    var transferable :- DecodeOptBool(m, "transferable");
    var memo :- DecodeOptString(m, "memo");
    var padding :- DecodeOptString(m, "padding");
    Ok(MintNft(tokenId, owner, publicMetadata, privateMetadata, serialNumber, royaltyInfo,
               transferable, memo, padding))
  }

  function DecodeMinters(j: Json, tag: string): Result<(seq<string>, Option<string>)>
    requires HasTag(j, tag)
  {
    var m :- Content(j, tag);
    var minters :- DecodeStrings(m, "minters");
    var padding :- DecodeOptString(m, "padding");
    Ok((minters, padding))
  }

  function DecodeBase(j: Json): Result<BaseMsg> {
    if HasTag(j, MINT_NFT) then
      var m :- Content(j, MINT_NFT);
      DecodeMint(m)
    else if HasTag(j, CHANGE_ADMIN) then
      var m :- Content(j, CHANGE_ADMIN);
      var address :- DecodeString(m, "address");
      var padding :- DecodeOptString(m, "padding");
      Ok(ChangeAdmin(address, padding))
    else if HasTag(j, ADD_MINTERS) then
      var x :- DecodeMinters(j, ADD_MINTERS);
      Ok(AddMinters(x.0, x.1))
    else if HasTag(j, REMOVE_MINTERS) then
      var x :- DecodeMinters(j, REMOVE_MINTERS);
      Ok(RemoveMinters(x.0, x.1))
    else if HasTag(j, SET_MINTERS) then
      var x :- DecodeMinters(j, SET_MINTERS);
      Ok(SetMinters(x.0, x.1))
    else if HasTag(j, SET_CONTRACT_STATUS) then
      var m :- Content(j, SET_CONTRACT_STATUS);
      var level :- DecodeLevel(m, "level");
      var padding :- DecodeOptString(m, "padding");
      Ok(SetContractStatus(level, padding))
    else
      match SoleTag(j)
      case Some(tag) =>
        if tag in OTHER_BASE_TAGS && j.fields[tag] != Null then Ok(OtherBase(tag, j.fields[tag])) else Err
      case None => Err
  }

  /** `visit_bytes` of the dealer: the first of three attempts that succeeds. */
  function DecodeDealer(j: Json): Result<DealerExecuteMsg> {
    if DecodePurchase(j).Ok? then Ok(DealerBase(DecodePurchase(j).value))
    else if DecodeMigratable(j).Ok? then Ok(DealerMigrate(DecodeMigratable(j).value))
    else if DecodeListener(j).Ok? then Ok(DealerListener(DecodeListener(j).value))
    else Err
  }

  /** `visit_bytes` of the child. */
  function DecodeChild(j: Json): Result<ChildExecuteMsg> {
    if DecodeBase(j).Ok? then Ok(ChildBase(DecodeBase(j).value))
    else if DecodeMigratable(j).Ok? then Ok(ChildMigrate(DecodeMigratable(j).value))
    else if DecodeListener(j).Ok? then Ok(ChildListener(DecodeListener(j).value))
    else Err
  }

  // ---------- properties ----------

  lemma LibraryTagsAreNotOtherBaseTags()
    ensures {SUBSCRIBE, MIGRATE, MIGRATION_COMPLETE} !! OTHER_BASE_TAGS
  {
  }

  lemma LibraryTagsAreNotModelledBaseTags()
    ensures {SUBSCRIBE, MIGRATE, MIGRATION_COMPLETE} !! MODELLED_BASE_TAGS
  {
  }

  lemma ModelledTagsAreNotOther()
    ensures MODELLED_BASE_TAGS !! OTHER_BASE_TAGS
  {
  }

  lemma DecodedTag(j: Json)
    ensures DecodeBase(j).Ok? ==> exists t :: t in MODELLED_BASE_TAGS + OTHER_BASE_TAGS && HasTag(j, t)
    ensures DecodeMigratable(j).Ok? ==> HasTag(j, SUBSCRIBE) || HasTag(j, MIGRATE)
    ensures DecodeListener(j).Ok? ==> HasTag(j, MIGRATION_COMPLETE)
  {
  }

  /** No input is read by two of the three enums the child tries. */
  lemma AtMostOneDecoderAccepts(j: Json)
    ensures DecodeBase(j).Ok? ==> DecodeMigratable(j).Err? && DecodeListener(j).Err?
    ensures DecodeMigratable(j).Ok? ==> DecodeListener(j).Err?
    ensures DecodePurchase(j).Ok? ==> DecodeMigratable(j).Err? && DecodeListener(j).Err?
  {
    DecodedTag(j);
    LibraryTagsAreNotOtherBaseTags();
    LibraryTagsAreNotModelledBaseTags();
  }

  /** The outcome is described attempt by attempt with no mention of the others,
      so the order in which the child makes its attempts cannot matter. */
  lemma ChildAttemptsCommute(j: Json)
    ensures forall b :: DecodeChild(j) == Ok(ChildBase(b)) <==> DecodeBase(j) == Ok(b)
    ensures forall m :: DecodeChild(j) == Ok(ChildMigrate(m)) <==> DecodeMigratable(j) == Ok(m)
    ensures forall l :: DecodeChild(j) == Ok(ChildListener(l)) <==> DecodeListener(j) == Ok(l)
  {
    AtMostOneDecoderAccepts(j);
  }

  lemma DealerAttemptsCommute(j: Json)
    ensures forall p :: DecodeDealer(j) == Ok(DealerBase(p)) <==> DecodePurchase(j) == Ok(p)
    ensures forall m :: DecodeDealer(j) == Ok(DealerMigrate(m)) <==> DecodeMigratable(j) == Ok(m)
    ensures forall l :: DecodeDealer(j) == Ok(DealerListener(l)) <==> DecodeListener(j) == Ok(l)
  {
    AtMostOneDecoderAccepts(j);
  }

  lemma TaggedHasOneTag(tag: string, content: Json)
    ensures forall t :: HasTag(Tagged(tag, content), t) <==> t == tag
    ensures SoleTag(Tagged(tag, content)) == Some(tag)
  {
    var j := Tagged(tag, content);
    assert tag in j.fields.Keys && j.fields.Keys == {tag};
    forall t | HasTag(j, t) ensures t == tag {
      assert t in {tag};
    }
  }

  lemma PurchaseRoundTrip(m: PurchaseMsg)
    ensures DecodePurchase(EncodePurchase(m)) == Ok(m)
  {
  }

  lemma MigratableRoundTrip(m: MigratableMsg)
    ensures DecodeMigratable(EncodeMigratable(m)) == Ok(m)
  {
  }

  lemma ListenerRoundTrip(m: ListenerMsg)
    ensures DecodeListener(EncodeListener(m)) == Ok(m)
  {
  }

  lemma MetadataRoundTrip(f: map<string, Json>, key: string, m: Option<Metadata>)
    requires key in f && f[key] == EncodeOptMetadata(m)
    ensures DecodeOptMetadata(f, key) == Ok(m)
  {
  }

  lemma MintMetadataFields(m: BaseMsg)
    requires m.MintNft?
    ensures DecodeOptMetadata(EncodeMint(m), "public_metadata") == Ok(m.publicMetadata)
    ensures DecodeOptMetadata(EncodeMint(m), "private_metadata") == Ok(m.privateMetadata)
  {
    MetadataRoundTrip(EncodeMint(m), "public_metadata", m.publicMetadata);
    MetadataRoundTrip(EncodeMint(m), "private_metadata", m.privateMetadata);
  }

  lemma MintStringFields(m: BaseMsg)
    requires m.MintNft?
    ensures DecodeOptString(EncodeMint(m), "token_id") == Ok(m.tokenId)
    ensures DecodeOptString(EncodeMint(m), "owner") == Ok(m.owner)
    ensures DecodeOptString(EncodeMint(m), "memo") == Ok(m.memo)
    ensures DecodeOptString(EncodeMint(m), "padding") == Ok(m.padding)
  {
  }

  lemma MintOtherFields(m: BaseMsg)
    requires m.MintNft?
    ensures DecodeOptPayload(EncodeMint(m), "serial_number") == Ok(m.serialNumber)
    ensures DecodeOptPayload(EncodeMint(m), "royalty_info") == Ok(m.royaltyInfo)
    ensures DecodeOptBool(EncodeMint(m), "transferable") == Ok(m.transferable)
  {
  }

  lemma MintFields(m: BaseMsg)
    requires m.MintNft?
    ensures DecodeMint(EncodeMint(m)) == Ok(m)
  {
    MintMetadataFields(m);
    MintStringFields(m);
    MintOtherFields(m);
  }

  lemma StringsRoundTrip(f: map<string, Json>, key: string, xs: seq<string>)
    requires key in f && f[key] == EncodeStrings(xs)
    ensures DecodeStrings(f, key) == Ok(xs)
  {
    assert DecodeStrings(f, key).value == xs;
  }

  lemma MintersRoundTrip(tag: string, minters: seq<string>, padding: Option<string>)
    ensures HasTag(EncodeMinters(tag, minters, padding), tag)
    ensures DecodeMinters(EncodeMinters(tag, minters, padding), tag) == Ok((minters, padding))
  {
    var j := EncodeMinters(tag, minters, padding);
    TaggedHasOneTag(tag, j.fields[tag]);
    StringsRoundTrip(j.fields[tag].fields, "minters", minters);
  }

  /** The other SNIP-721 messages carry a tag that the SNIP-721 enum knows. */
  predicate KnownTag(m: BaseMsg) {
    m.OtherBase? ==> m.tag in OTHER_BASE_TAGS
  }

  lemma BaseRoundTrip(m: BaseMsg)
    requires KnownTag(m)
    ensures DecodeBase(EncodeBase(m)) == Ok(m)
  {
    var j := EncodeBase(m);
    match m {
      case MintNft(_, _, _, _, _, _, _, _, _) => MintFields(m);
      case ChangeAdmin(_, _) => TaggedHasOneTag(CHANGE_ADMIN, j.fields[CHANGE_ADMIN]);
      case AddMinters(xs, p) =>
        MintersRoundTrip(ADD_MINTERS, xs, p);
        TaggedHasOneTag(ADD_MINTERS, j.fields[ADD_MINTERS]);
      case RemoveMinters(xs, p) =>
        MintersRoundTrip(REMOVE_MINTERS, xs, p);
        TaggedHasOneTag(REMOVE_MINTERS, j.fields[REMOVE_MINTERS]);
      case SetMinters(xs, p) =>
        MintersRoundTrip(SET_MINTERS, xs, p);
        TaggedHasOneTag(SET_MINTERS, j.fields[SET_MINTERS]);
      case SetContractStatus(_, _) => TaggedHasOneTag(SET_CONTRACT_STATUS, j.fields[SET_CONTRACT_STATUS]);
      case OtherBase(tag, content) =>
        ModelledTagsAreNotOther();
        TaggedHasOneTag(tag, content);
    }
  }

  /** Main result: what is written by the untagged `Serialize` is read back by `visit_bytes`
      as the same message in the same outer variant. */
  lemma ChildRoundTrip(m: ChildExecuteMsg)
    requires m.ChildBase? ==> KnownTag(m.base)
    ensures DecodeChild(EncodeChild(m)) == Ok(m)
  {
    ChildAttemptsCommute(EncodeChild(m));
    match m {
      case ChildBase(b) => BaseRoundTrip(b);
      case ChildMigrate(x) => MigratableRoundTrip(x);
      case ChildListener(l) => ListenerRoundTrip(l);
    }
  }

  lemma DealerRoundTrip(m: DealerExecuteMsg)
    ensures DecodeDealer(EncodeDealer(m)) == Ok(m)
  {
    DealerAttemptsCommute(EncodeDealer(m));
    match m {
      case DealerBase(p) => PurchaseRoundTrip(p);
      case DealerMigrate(x) => MigratableRoundTrip(x);
      case DealerListener(l) => ListenerRoundTrip(l);
    }
  }

  // ---------- what is accepted, by the names on the wire ----------

  /** An optional field: a missing or null member is `None`. */
  predicate ReadsString(m: map<string, Json>, key: string, v: Option<string>) {
    match v
    case None => key !in m || m[key] == Null
    case Some(s) => key in m && m[key] == Str(s)
  }

  predicate ReadsBool(m: map<string, Json>, key: string, v: Option<bool>) {
    match v
    case None => key !in m || m[key] == Null
    case Some(b) => key in m && m[key] == Bool(b)
  }

  predicate ReadsPayload(m: map<string, Json>, key: string, v: Option<Payload>) {
    match v
    case None => key !in m || m[key] == Null
    case Some(p) => key in m && m[key] == p
  }

  predicate ReadsMetadata(m: map<string, Json>, key: string, v: Option<Metadata>) {
    match v
    case None => key !in m || m[key] == Null
    case Some(x) =>
      && key in m && m[key].Obj?
      && ReadsString(m[key].fields, "token_uri", x.tokenUri) && ReadsString(m[key].fields, "extension", x.extension)
  }

  predicate ReadsStrings(m: map<string, Json>, key: string, xs: seq<string>) {
    && key in m && m[key].Arr? && |m[key].items| == |xs|
    && forall i | 0 <= i < |xs| :: m[key].items[i] == Str(xs[i])
  }

  /** The code hash of a contract's info may be missing and is then empty. */
  predicate ReadsInfo(m: map<string, Json>, key: string, info: ContractInfo) {
    && key in m && m[key].Obj?
    && var f := m[key].fields;
    && "address" in f && f["address"] == Str(info.address)
    && (if "code_hash" in f then f["code_hash"] == Str(info.codeHash) else info.codeHash == "")
  }

  /** The members under the one tag of a message. */
  predicate Carries(j: Json, tag: string, m: map<string, Json>) {
    j.Obj? && j.fields.Keys == {tag} && j.fields[tag] == Obj(m)
  }

  /** The dealer takes for a purchase exactly the objects with the one member `purchase_mint`, an
      object of any content. */
  lemma PurchaseIsRecognised(j: Json)
    ensures DecodeDealer(j) == Ok(DealerBase(PurchaseMint)) <==>
            j.Obj? && j.fields.Keys == {"purchase_mint"} && j.fields["purchase_mint"].Obj?
  {
    DealerAttemptsCommute(j);
  }

  lemma SubscriptionIsRecognised(j: Json, address: string, codeHash: string)
    ensures var recognised := exists m :: Carries(j, "subscribe_to_migration_complete_event", m) &&
                                          ReadsString(m, "address", Some(address)) &&
                                          ReadsString(m, "code_hash", Some(codeHash));
            && (DecodeChild(j) == Ok(ChildMigrate(Subscribe(address, codeHash))) <==> recognised)
            && (DecodeDealer(j) == Ok(DealerMigrate(Subscribe(address, codeHash))) <==> recognised)
  {
    ChildAttemptsCommute(j);
    DealerAttemptsCommute(j);
    if HasTag(j, SUBSCRIBE) && j.fields[SUBSCRIBE].Obj? {
      assert Carries(j, "subscribe_to_migration_complete_event", j.fields[SUBSCRIBE].fields);
    }
  }

  lemma RequestIsRecognised(j: Json, content: Payload)
    ensures var recognised := j.Obj? && j.fields.Keys == {"migrate"} && j.fields["migrate"] == content;
            && (DecodeChild(j) == Ok(ChildMigrate(MigrateRequest(content))) <==> recognised)
            && (DecodeDealer(j) == Ok(DealerMigrate(MigrateRequest(content))) <==> recognised)
  {
    ChildAttemptsCommute(j);
    DealerAttemptsCommute(j);
  }

  lemma NoticeIsRecognised(j: Json, to: ContractInfo, data: Option<string>)
    ensures var recognised := exists m :: Carries(j, "migration_complete_notification", m) &&
                                          ReadsInfo(m, "to", to) && ReadsString(m, "data", data);
            && (DecodeChild(j) == Ok(ChildListener(MigrationComplete(to, data))) <==> recognised)
            && (DecodeDealer(j) == Ok(DealerListener(MigrationComplete(to, data))) <==> recognised)
  {
    ChildAttemptsCommute(j);
    DealerAttemptsCommute(j);
    if HasTag(j, MIGRATION_COMPLETE) && j.fields[MIGRATION_COMPLETE].Obj? {
      assert Carries(j, "migration_complete_notification", j.fields[MIGRATION_COMPLETE].fields);
    }
  }

  predicate ReadsMint(f: map<string, Json>, m: BaseMsg)
    requires m.MintNft?
  {
    && ReadsString(f, "token_id", m.tokenId) && ReadsString(f, "owner", m.owner)
    && ReadsMetadata(f, "public_metadata", m.publicMetadata) && ReadsMetadata(f, "private_metadata", m.privateMetadata)
    && ReadsPayload(f, "serial_number", m.serialNumber) && ReadsPayload(f, "royalty_info", m.royaltyInfo)
    && ReadsBool(f, "transferable", m.transferable)
    && ReadsString(f, "memo", m.memo) && ReadsString(f, "padding", m.padding)
  }

  lemma MintIsRecognised(j: Json, m: BaseMsg)
    requires m.MintNft?
    ensures DecodeChild(j) == Ok(ChildBase(m)) <==> exists f :: Carries(j, "mint_nft", f) && ReadsMint(f, m)
  {
    ChildAttemptsCommute(j);
    if HasTag(j, MINT_NFT) && j.fields[MINT_NFT].Obj? {
      assert Carries(j, "mint_nft", j.fields[MINT_NFT].fields);
      MintIsRead(j.fields[MINT_NFT].fields, m);
    }
  }

  lemma StringIsRead(f: map<string, Json>, key: string, v: Option<string>)
    ensures DecodeOptString(f, key) == Ok(v) <==> ReadsString(f, key, v)
  {
  }

  lemma MetadataIsRead(f: map<string, Json>, key: string, v: Option<Metadata>)
    ensures DecodeOptMetadata(f, key) == Ok(v) <==> ReadsMetadata(f, key, v)
  {
  }

  lemma OtherFieldsAreRead(f: map<string, Json>, key: string, b: Option<bool>, p: Option<Payload>)
    ensures DecodeOptBool(f, key) == Ok(b) <==> ReadsBool(f, key, b)
    ensures DecodeOptPayload(f, key) == Ok(p) <==> ReadsPayload(f, key, p)
  {
  }

  /** A mint is read field by field. */
  lemma MintIsReadByField(f: map<string, Json>, m: BaseMsg)
    requires m.MintNft?
    ensures DecodeMint(f) == Ok(m) <==>
            && DecodeOptString(f, "token_id") == Ok(m.tokenId) && DecodeOptString(f, "owner") == Ok(m.owner)
            && DecodeOptMetadata(f, "public_metadata") == Ok(m.publicMetadata)
            && DecodeOptMetadata(f, "private_metadata") == Ok(m.privateMetadata)
            && DecodeOptPayload(f, "serial_number") == Ok(m.serialNumber)
            && DecodeOptPayload(f, "royalty_info") == Ok(m.royaltyInfo)
            && DecodeOptBool(f, "transferable") == Ok(m.transferable)
            && DecodeOptString(f, "memo") == Ok(m.memo) && DecodeOptString(f, "padding") == Ok(m.padding)
  {
  }

  lemma MintIsRead(f: map<string, Json>, m: BaseMsg)
    requires m.MintNft?
    ensures DecodeMint(f) == Ok(m) <==> ReadsMint(f, m)
  {
    MintIsReadByField(f, m);
    StringIsRead(f, "token_id", m.tokenId);
    StringIsRead(f, "owner", m.owner);
    StringIsRead(f, "memo", m.memo);
    StringIsRead(f, "padding", m.padding);
    MetadataIsRead(f, "public_metadata", m.publicMetadata);
    MetadataIsRead(f, "private_metadata", m.privateMetadata);
    OtherFieldsAreRead(f, "serial_number", None, m.serialNumber);
    OtherFieldsAreRead(f, "royalty_info", None, m.royaltyInfo);
    OtherFieldsAreRead(f, "transferable", m.transferable, None);
  }

  lemma ChangeAdminIsRecognised(j: Json, address: string, padding: Option<string>)
    ensures DecodeChild(j) == Ok(ChildBase(ChangeAdmin(address, padding))) <==>
            exists f :: Carries(j, "change_admin", f) && ReadsString(f, "address", Some(address)) &&
                        ReadsString(f, "padding", padding)
  {
    ChildAttemptsCommute(j);
    if HasTag(j, CHANGE_ADMIN) && j.fields[CHANGE_ADMIN].Obj? {
      assert Carries(j, "change_admin", j.fields[CHANGE_ADMIN].fields);
    }
  }

  lemma MintersAreRead(f: map<string, Json>, minters: seq<string>)
    ensures DecodeStrings(f, "minters") == Ok(minters) <==> ReadsStrings(f, "minters", minters)
  {
    if ReadsStrings(f, "minters", minters) {
      assert DecodeStrings(f, "minters").value == minters;
    }
  }

  lemma MintersAreRecognised(j: Json, minters: seq<string>, padding: Option<string>)
    ensures DecodeChild(j) == Ok(ChildBase(AddMinters(minters, padding))) <==>
            exists f :: Carries(j, "add_minters", f) && ReadsStrings(f, "minters", minters) &&
                        ReadsString(f, "padding", padding)
    ensures DecodeChild(j) == Ok(ChildBase(RemoveMinters(minters, padding))) <==>
            exists f :: Carries(j, "remove_minters", f) && ReadsStrings(f, "minters", minters) &&
                        ReadsString(f, "padding", padding)
    ensures DecodeChild(j) == Ok(ChildBase(SetMinters(minters, padding))) <==>
            exists f :: Carries(j, "set_minters", f) && ReadsStrings(f, "minters", minters) &&
                        ReadsString(f, "padding", padding)
  {
    ChildAttemptsCommute(j);
    MintersTagged(j, ADD_MINTERS, minters, padding);
    MintersTagged(j, REMOVE_MINTERS, minters, padding);
    MintersTagged(j, SET_MINTERS, minters, padding);
  }

  lemma MintersTagged(j: Json, tag: string, minters: seq<string>, padding: Option<string>)
    ensures HasTag(j, tag) && DecodeMinters(j, tag) == Ok((minters, padding)) <==>
            exists f :: Carries(j, tag, f) && ReadsStrings(f, "minters", minters) && ReadsString(f, "padding", padding)
  {
    if HasTag(j, tag) && j.fields[tag].Obj? {
      assert Carries(j, tag, j.fields[tag].fields);
      MintersAreRead(j.fields[tag].fields, minters);
    }
  }

  function LevelName(level: Level): string {
    match level
    case Normal => "normal"
    case StopTransactions => "stop_transactions"
    case StopAll => "stop_all"
  }

  lemma StatusIsRecognised(j: Json, level: Level, padding: Option<string>)
    ensures DecodeChild(j) == Ok(ChildBase(SetContractStatus(level, padding))) <==>
            exists f :: Carries(j, "set_contract_status", f) && ReadsString(f, "level", Some(LevelName(level))) &&
                        ReadsString(f, "padding", padding)
  {
    ChildAttemptsCommute(j);
    if HasTag(j, SET_CONTRACT_STATUS) && j.fields[SET_CONTRACT_STATUS].Obj? {
      assert Carries(j, "set_contract_status", j.fields[SET_CONTRACT_STATUS].fields);
    }
  }
}
