/** The vault's record types: the enumerations, organisations, collections
    and the three item variants with their equality and their construction
    from a listed record by its type discriminator. */
module Types {
  import opened Results

  /** `ItemTypes`: the discriminator values of vault items. */
  datatype ItemType = LoginType | NoteType | CardType | IdentityType {
    function Value(): int {
      match this
      case LoginType => 1
      case NoteType => 2
      case CardType => 3
      case IdentityType => 4
    }
  }

  /** `OrganizationStatus`: membership status codes. */
  datatype OrganizationStatus = Invited | Accepted | Confirmed | Revoked {
    function Value(): int {
      match this
      case Invited => 0
      case Accepted => 1
      case Confirmed => 2
      case Revoked => -1
    }
  }

  /** `OrganizationUserTypes`: role codes of a member of an organisation. */
  datatype OrganizationUserType = Owner | Admin | User | Manager | Custom {
    function Value(): int {
      match this
      case Owner => 0
      case Admin => 1
      case User => 2
      case Manager => 3
      case Custom => 4
    }
  }

  /** The enumeration member with a given value (`ItemTypes(v)`). */
  function ItemTypeOf(v: int): (r: Option<ItemType>)
    ensures r.Some? <==> 1 <= v <= 4
    ensures r.Some? ==> r.value.Value() == v
  {
    if v == 1 then Some(LoginType)
    else if v == 2 then Some(NoteType)
    else if v == 3 then Some(CardType)
    else if v == 4 then Some(IdentityType)
    else None
  }

  function OrganizationStatusOf(v: int): (r: Option<OrganizationStatus>)
    ensures r.Some? <==> -1 <= v <= 2
    ensures r.Some? ==> r.value.Value() == v
  {
    if v == 0 then Some(Invited)
    else if v == 1 then Some(Accepted)
    else if v == 2 then Some(Confirmed)
    else if v == -1 then Some(Revoked)
    else None
  }

  function OrganizationUserTypeOf(v: int): (r: Option<OrganizationUserType>)
    ensures r.Some? <==> 0 <= v <= 4
    ensures r.Some? ==> r.value.Value() == v
  {
    if v == 0 then Some(Owner)
    else if v == 1 then Some(Admin)
    else if v == 2 then Some(User)
    else if v == 3 then Some(Manager)
    else if v == 4 then Some(Custom)
    else None
  }

  /** Every enumeration member is found again from its value. */
  lemma EnumValuesRoundTrip(t: ItemType, st: OrganizationStatus, u: OrganizationUserType)
    ensures ItemTypeOf(t.Value()) == Some(t)
    ensures OrganizationStatusOf(st.Value()) == Some(st)
    ensures OrganizationUserTypeOf(u.Value()) == Some(u)
  {
  }

  /** A collection as listed by the CLI; the constructor copies the four
      fields of the record verbatim, so the record is the value. */
  datatype Collection = Collection(id: string, organizationId: string, name: string, externalId: Option<string>)

  /** An organisation as listed by the CLI; the constructor copies id, name,
      status, type and enabled verbatim, so the record is the value. The
      status and type stay raw integers, as the source compares them so. */
  datatype Organization = Organization(id: string, name: string, status: int, userType: int, enabled: bool)

  /** Sub-records of a listed item; JSON `null` is `None`. */
  datatype LoginRecord = LoginRecord(username: Option<string>, password: Option<string>, totp: Option<string>)
  datatype CardRecord = CardRecord(
    cardholderName: Option<string>, brand: Option<string>, number: Option<string>,
    expMonth: Option<string>, expYear: Option<string>, code: Option<string>)

  /** An item record as listed by `list items`, already decoded from JSON. */
  datatype ItemRecord = ItemRecord(
    itemType: int, id: string, folderId: Option<string>, name: string, notes: Option<string>,
    login: LoginRecord, card: CardRecord)

  /** `BitwardenLogin`, `BitwardenCard` and `BitwardenNote`, all carrying the
      `BitwardenItem` fields id, folderId, name and notes. */
  datatype Item =
    | Login(id: string, folderId: Option<string>, name: string, notes: Option<string>,
            username: Option<string>, password: Option<string>, totp: Option<string>)
    | Card(id: string, folderId: Option<string>, name: string, notes: Option<string>,
           holderName: Option<string>, brand: Option<string>, number: Option<string>,
           month: Option<string>, year: Option<string>, code: Option<string>)
    | Note(id: string, folderId: Option<string>, name: string, notes: Option<string>)

  /** `get_bitwarden_item`: dispatch on the type discriminator; any other
      value, IDENTITY included, falls off the end and yields `None`. */
  function GetBitwardenItem(conf: ItemRecord): (r: Option<Item>)
    ensures r.Some? <==> conf.itemType in {1, 2, 3}
    ensures r.Some? ==> r.value.id == conf.id && r.value.folderId == conf.folderId
                        && r.value.name == conf.name && r.value.notes == conf.notes
    ensures conf.itemType == CardType.Value() <==> r.Some? && r.value.Card?
    ensures conf.itemType == LoginType.Value() <==> r.Some? && r.value.Login?
    ensures conf.itemType == NoteType.Value() <==> r.Some? && r.value.Note?
  {
    var t := conf.itemType;
    if t == CardType.Value() then
      var c := conf.card;
      Some(Card(conf.id, conf.folderId, conf.name, conf.notes,
                c.cardholderName, c.brand, c.number, c.expMonth, c.expYear, c.code))
    else if t == LoginType.Value() then
      var l := conf.login;
      Some(Login(conf.id, conf.folderId, conf.name, conf.notes, l.username, l.password, l.totp))
    else if t == NoteType.Value() then
      Some(Note(conf.id, conf.folderId, conf.name, conf.notes))
    else
      None
  }

  /** The record the CLI lists for an item: the reference encoding that
      `GetBitwardenItem` inverts. */
  function ToRecord(item: Item): ItemRecord {
    var noLogin := LoginRecord(None, None, None);
    var noCard := CardRecord(None, None, None, None, None, None);
    match item
    case Login(id, fid, name, notes, u, p, t) =>
      ItemRecord(LoginType.Value(), id, fid, name, notes, LoginRecord(u, p, t), noCard)
    case Card(id, fid, name, notes, h, b, n, m, y, c) =>
      ItemRecord(CardType.Value(), id, fid, name, notes, noLogin, CardRecord(h, b, n, m, y, c))
    case Note(id, fid, name, notes) =>
      ItemRecord(NoteType.Value(), id, fid, name, notes, noLogin, noCard)
  }

  /** Decoding the record of an item gives back the item. */
  lemma DecodeEncode(item: Item)
    ensures GetBitwardenItem(ToRecord(item)) == Some(item)
  {
  }

  /** `BitwardenItem.__eq__` on the shared fields: name and notes only. */
  predicate BaseEquals(a: Item, b: Item) {
    a.name == b.name && a.notes == b.notes
  }

  /** `a.__eq__(other)`. The subclass comparisons read the other item's
      variant fields once the base comparison holds; an item of another
      variant has none, which raises AttributeError. */
  function Equals(a: Item, other: Option<Item>): (r: Result<bool, Error>)
    ensures other.None? ==> r == Success(false)
    ensures r == Success(true) ==> other.Some? && BaseEquals(a, other.value)
    ensures r.Failure? <==> other.Some? && BaseEquals(a, other.value)
                            && !a.Note? && (a.Login? != other.value.Login? || a.Card? != other.value.Card?)
  {
    match other
    case None => Success(false)
    case Some(b) =>
      if !BaseEquals(a, b) then Success(false)
      else
        match a
        case Note(_, _, _, _) => Success(true)
        case Login(_, _, _, _, _, _, _) =>
          if !b.Login? then Failure(AttributeError)
          else Success(a.username == b.username && a.password == b.password && a.totp == b.totp)
        case Card(_, _, _, _, _, _, _, _, _, _) =>
          if !b.Card? then Failure(AttributeError)
          else Success(a.holderName == b.holderName && a.brand == b.brand && a.number == b.number
                       && a.month == b.month && a.year == b.year && a.code == b.code)
  }

  predicate SameVariant(a: Item, b: Item) {
    (a.Login? && b.Login?) || (a.Card? && b.Card?) || (a.Note? && b.Note?)
  }

  /** Between items of one variant, equality never fails and holds exactly
      when every compared field agrees; id and folderId are never compared. */
  lemma EqualsSameVariant(a: Item, b: Item)
    requires SameVariant(a, b)
    ensures Equals(a, Some(b)).Success?
    ensures a.Note? ==> (Equals(a, Some(b)).value <==> a.name == b.name && a.notes == b.notes)
    ensures a.Login? ==> (Equals(a, Some(b)).value <==>
              a.name == b.name && a.notes == b.notes
              && a.username == b.username && a.password == b.password && a.totp == b.totp)
    ensures a.Card? ==> (Equals(a, Some(b)).value <==>
              a.name == b.name && a.notes == b.notes
              && a.holderName == b.holderName && a.brand == b.brand && a.number == b.number
              && a.month == b.month && a.year == b.year && a.code == b.code)
  {
  }

  /** Equality is reflexive and, within one variant, symmetric. */
  lemma EqualsReflexiveSymmetric(a: Item, b: Item)
    ensures Equals(a, Some(a)) == Success(true)
    ensures SameVariant(a, b) ==> Equals(a, Some(b)) == Equals(b, Some(a))
  {
  }

  /** Changing only id and folderId never changes the outcome. */
  lemma EqualsIgnoresIds(a: Item, b: Item, id: string, folderId: Option<string>)
    ensures Equals(a.(id := id, folderId := folderId), Some(b)) == Equals(a, Some(b))
    ensures Equals(a, Some(b.(id := id, folderId := folderId))) == Equals(a, Some(b))
  {
  }

  /** A note compares only the shared fields, so it may equal an item of
      another variant, whereas a login or a card compared with a note that
      matches on name and notes raises AttributeError. */
  lemma NoteComparesAcrossVariants(n: Item, x: Item)
    requires n.Note? && !x.Note? && BaseEquals(n, x)
    ensures Equals(n, Some(x)) == Success(true)
    ensures Equals(x, Some(n)) == Failure(AttributeError)
  {
  }
}
