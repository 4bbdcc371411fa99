/**
 * The benchmark's user migration: `UserETL` turns one nested MongoDB user
 * document into rows of fifteen PostgreSQL tables (`Transform`) and inserts a
 * batch of such rows table by table in a fixed dependency order (`Load`).
 *
 * Database inserts are an oracle `Db`: given the inserts already made by this
 * `Load` call and the rows of the next one, it answers with the error the
 * insert returned, if any. Timestamps are copied and never inspected, so they
 * are plain integers; the JSON columns hold the value `json.Marshal` encoded.
 */
module UserMigration {
  import opened Errors
  import Bucket
  import Etl

  /** `time.Time`: copied from document to row, never inspected. */
  type Time = int

  // ---------------------------------------------------------------------------
  // The MongoDB document
  // ---------------------------------------------------------------------------

  datatype Coordinates = Coordinates(lat: real, lng: real)
  datatype Address = Address(street: string, city: string, state: string, zipCode: string,
                             country: string, coordinates: Coordinates)
  datatype Education = Education(institution: string, degree: string, year: int, description: string)
  datatype Experience = Experience(company: string, position: string, duration: string, description: string)
  datatype Profile = Profile(bio: string, interests: seq<string>, skills: seq<string>,
                             education: seq<Education>, experience: seq<Experience>)
  datatype NotificationSettings = NotificationSettings(email: bool, push: bool, sms: bool)
  datatype Setting = Setting(key: string, value: string, timestamp: Time, metadata: string)
  datatype Preferences = Preferences(language: string, timezone: string,
                                     notifications: NotificationSettings, settings: seq<Setting>)
  datatype DataEntry = DataEntry(key: string, value: string, timestamp: Time, metadata: string)
  datatype Attachment = Attachment(name: string, size: int, fileType: string)
  /** `sender` and `recipient` are the document's `from` and `to`. */
  datatype Message = Message(id: string, sender: string, recipient: string, subject: string, body: string,
                             timestamp: Time, read: bool, attachments: seq<Attachment>)
  datatype Group = Group(id: string, name: string, joined: Time)
  datatype SocialMedia = SocialMedia(posts: seq<DataEntry>, connections: seq<string>, groups: seq<Group>)
  datatype LargeData = LargeData(blob1: string, blob2: string, blob3: string, blob4: string, blob5: string)

  datatype User = User(
    id: int, username: string, email: string, firstName: string, lastName: string, age: int,
    createdAt: Time, updatedAt: Time,
    address: Address, profile: Profile, preferences: Preferences,
    activityLog: seq<DataEntry>, transactions: seq<DataEntry>, messages: seq<Message>,
    socialMedia: SocialMedia, largeData: LargeData)

  // ---------------------------------------------------------------------------
  // The PostgreSQL rows
  // ---------------------------------------------------------------------------

  /** What `json.Marshal` encoded into a JSON column. */
  datatype Json =
    | CoordinatesJson(lat: real, lng: real)
    | StringsJson(strings: seq<string>)
    | NotificationsJson(email: bool, push: bool, sms: bool)

  datatype PGUser = PGUser(id: int, username: string, email: string, firstName: string, lastName: string,
                           age: int, createdAt: Time, updatedAt: Time)
  datatype PGAddress = PGAddress(id: int, userId: int, street: string, city: string, state: string,
                                 zipCode: string, country: string, coordinates: Json)
  datatype PGProfile = PGProfile(id: int, userId: int, bio: string, interests: Json, skills: Json)
  datatype PGEducation = PGEducation(id: int, profileId: int, institution: string, degree: string,
                                     year: int, description: string)
  datatype PGExperience = PGExperience(id: int, profileId: int, company: string, position: string,
                                       duration: string, description: string)
  datatype PGPreferences = PGPreferences(id: int, userId: int, language: string, timezone: string,
                                         notifications: Json)
  datatype PGSettings = PGSettings(id: int, preferenceId: int, key: string, value: string,
                                   timestamp: Time, metadata: string)
  datatype PGActivityLog = PGActivityLog(id: int, userId: int, key: string, value: string,
                                         timestamp: Time, metadata: string)
  datatype PGTransactions = PGTransactions(id: int, userId: int, key: string, value: string,
                                           timestamp: Time, metadata: string)
  datatype PGMessages = PGMessages(id: string, userId: int, sender: string, recipient: string,
                                   subject: string, body: string, timestamp: Time, read: bool)
  datatype PGAttachments = PGAttachments(id: int, messageId: string, name: string, size: int, fileType: string)
  datatype PGSocialMedia = PGSocialMedia(id: int, userId: int, connections: Json)
  datatype PGPosts = PGPosts(id: int, socialMediaId: int, key: string, value: string,
                             timestamp: Time, metadata: string)
  datatype PGGroups = PGGroups(id: string, socialMediaId: int, name: string, joined: Time)
  datatype PGLargeData = PGLargeData(id: int, userId: int, blob1: string, blob2: string, blob3: string,
                                     blob4: string, blob5: string)

  /** `TransformedUser`: one user's rows, table by table. */
  datatype TransformedUser = TransformedUser(
    user: PGUser, address: PGAddress, profile: PGProfile,
    education: seq<PGEducation>, experience: seq<PGExperience>,
    preferences: PGPreferences, settings: seq<PGSettings>,
    activityLog: seq<PGActivityLog>, transactions: seq<PGTransactions>,
    messages: seq<PGMessages>, attachments: seq<PGAttachments>,
    socialMedia: PGSocialMedia, posts: seq<PGPosts>, groups: seq<PGGroups>,
    largeData: PGLargeData)

  // ---------------------------------------------------------------------------
  // Transform
  // ---------------------------------------------------------------------------

  const IdStride := 10000

  /** The synthetic key of the `idx`-th child row of a user (`int64` overflow not modelled). */
  function ChildId(userId: int, idx: nat): int {
    userId * IdStride + idx
  }

  function UserRow(u: User): PGUser {
    PGUser(u.id, u.username, u.email, u.firstName, u.lastName, u.age, u.createdAt, u.updatedAt)
  }

  function AddressRow(u: User): PGAddress {
    var a := u.address;
    PGAddress(u.id, u.id, a.street, a.city, a.state, a.zipCode, a.country,
              CoordinatesJson(a.coordinates.lat, a.coordinates.lng))
  }

  function ProfileRow(u: User): PGProfile {
    PGProfile(u.id, u.id, u.profile.bio, StringsJson(u.profile.interests), StringsJson(u.profile.skills))
  }

  function EducationRow(userId: int, idx: nat, e: Education): PGEducation {
    PGEducation(ChildId(userId, idx), userId, e.institution, e.degree, e.year, e.description)
  }

  function ExperienceRow(userId: int, idx: nat, e: Experience): PGExperience {
    PGExperience(ChildId(userId, idx), userId, e.company, e.position, e.duration, e.description)
  }

  function PreferencesRow(u: User): PGPreferences {
    var n := u.preferences.notifications;
    PGPreferences(u.id, u.id, u.preferences.language, u.preferences.timezone,
                  NotificationsJson(n.email, n.push, n.sms))
  }

  function SettingRow(userId: int, idx: nat, s: Setting): PGSettings {
    PGSettings(ChildId(userId, idx), userId, s.key, s.value, s.timestamp, s.metadata)
  }

  function ActivityRow(userId: int, idx: nat, d: DataEntry): PGActivityLog {
    PGActivityLog(ChildId(userId, idx), userId, d.key, d.value, d.timestamp, d.metadata)
  }

  function TransactionRow(userId: int, idx: nat, d: DataEntry): PGTransactions {
    PGTransactions(ChildId(userId, idx), userId, d.key, d.value, d.timestamp, d.metadata)
  }

  function MessageRow(userId: int, m: Message): PGMessages {
    PGMessages(m.id, userId, m.sender, m.recipient, m.subject, m.body, m.timestamp, m.read)
  }

  function AttachmentRow(userId: int, idx: nat, messageId: string, a: Attachment): PGAttachments {
    PGAttachments(ChildId(userId, idx), messageId, a.name, a.size, a.fileType)
  }

  function SocialMediaRow(u: User): PGSocialMedia {
    PGSocialMedia(u.id, u.id, StringsJson(u.socialMedia.connections))
  }

  function PostRow(userId: int, idx: nat, d: DataEntry): PGPosts {
    PGPosts(ChildId(userId, idx), userId, d.key, d.value, d.timestamp, d.metadata)
  }

  function GroupRow(userId: int, g: Group): PGGroups {
    PGGroups(g.id, userId, g.name, g.joined)
  }

  function LargeDataRow(u: User): PGLargeData {
    var l := u.largeData;
    PGLargeData(u.id, u.id, l.blob1, l.blob2, l.blob3, l.blob4, l.blob5)
  }

  /** The attachment rows of one message; the index restarts at 0 for every message. */
  function AttachmentRows(userId: int, m: Message): seq<PGAttachments> {
    seq(|m.attachments|, j requires 0 <= j < |m.attachments| => AttachmentRow(userId, j, m.id, m.attachments[j]))
  }

  /** The attachment rows of all messages, message after message. */
  function AttachmentsOf(userId: int, ms: seq<Message>): seq<PGAttachments> {
    if ms == [] then [] else AttachmentsOf(userId, ms[..|ms| - 1]) + AttachmentRows(userId, ms[|ms| - 1])
  }

  /** Where the rows of message `i` start: the number of attachments of the messages before it. */
  function Offset(ms: seq<Message>, i: nat): nat
    requires i <= |ms|
  {
    AttachmentCount(ms[..i])
  }

  /** The number of attachments over all messages. */
  function AttachmentCount(ms: seq<Message>): nat {
    if ms == [] then 0 else AttachmentCount(ms[..|ms| - 1]) + |ms[|ms| - 1].attachments|
  }

  /** What `Transform` computes, table by table. */
  function Flatten(u: User): TransformedUser {
    var es := u.profile.education;
    var xs := u.profile.experience;
    var ss := u.preferences.settings;
    var ls := u.activityLog;
    var ts := u.transactions;
    var ms := u.messages;
    var ps := u.socialMedia.posts;
    var gs := u.socialMedia.groups;
    TransformedUser(
      UserRow(u), AddressRow(u), ProfileRow(u),
      seq(|es|, i requires 0 <= i < |es| => EducationRow(u.id, i, es[i])),
      seq(|xs|, i requires 0 <= i < |xs| => ExperienceRow(u.id, i, xs[i])),
      PreferencesRow(u),
      seq(|ss|, i requires 0 <= i < |ss| => SettingRow(u.id, i, ss[i])),
      seq(|ls|, i requires 0 <= i < |ls| => ActivityRow(u.id, i, ls[i])),
      seq(|ts|, i requires 0 <= i < |ts| => TransactionRow(u.id, i, ts[i])),
      seq(|ms|, i requires 0 <= i < |ms| => MessageRow(u.id, ms[i])),
      AttachmentsOf(u.id, ms),
      SocialMediaRow(u),
      seq(|ps|, i requires 0 <= i < |ps| => PostRow(u.id, i, ps[i])),
      seq(|gs|, i requires 0 <= i < |gs| => GroupRow(u.id, gs[i])),
      LargeDataRow(u))
  }

  /** One `for idx, x := range xs { rows = append(rows, ...) }` loop of `Transform`. */
  method AppendRows<A, R>(xs: seq<A>, row: (nat, A) -> R) returns (rows: seq<R>)
    ensures |rows| == |xs|
    ensures forall i :: 0 <= i < |xs| ==> rows[i] == row(i, xs[i])
  {
    rows := [];
    for idx := 0 to |xs|
      invariant |rows| == idx
      invariant forall i :: 0 <= i < idx ==> rows[i] == row(i, xs[i])
    {
      rows := rows + [row(idx, xs[idx])];
    }
  }

  /** The messages loop of `Transform`, with its inner loop over each message's attachments. */
  method MessageRows(userId: int, ms: seq<Message>) returns (messages: seq<PGMessages>, attachments: seq<PGAttachments>)
    ensures |messages| == |ms|
    ensures forall i :: 0 <= i < |ms| ==> messages[i] == MessageRow(userId, ms[i])
    ensures attachments == AttachmentsOf(userId, ms)
  {
    messages := [];
    attachments := [];
    for k := 0 to |ms|
      invariant |messages| == k
      invariant forall i :: 0 <= i < k ==> messages[i] == MessageRow(userId, ms[i])
      invariant attachments == AttachmentsOf(userId, ms[..k])
    {
      var msg := ms[k];
      messages := messages + [MessageRow(userId, msg)];
      ghost var before := attachments;
      ghost var rows := AttachmentRows(userId, msg);
      for idx := 0 to |msg.attachments|
        invariant attachments == before + rows[..idx]
      {
        assert rows[..idx + 1] == rows[..idx] + [rows[idx]];
        attachments := attachments + [AttachmentRow(userId, idx, msg.id, msg.attachments[idx])];
      }
      assert rows[..|msg.attachments|] == rows;
      assert ms[..k + 1][..k] == ms[..k];
    }
    assert ms[..|ms|] == ms;
  }

  /** `UserETL.Transform`: the rows of all fifteen tables for one user. */
  method Transform(u: User) returns (t: TransformedUser)
    ensures t == Flatten(u)
  {
    var pgUser := UserRow(u);
    var pgAddress := AddressRow(u);
    var pgProfile := ProfileRow(u);
    var education := AppendRows(u.profile.education, (idx: nat, e: Education) => EducationRow(u.id, idx, e));
    var experience := AppendRows(u.profile.experience, (idx: nat, e: Experience) => ExperienceRow(u.id, idx, e));
    var pgPreferences := PreferencesRow(u);
    var settings := AppendRows(u.preferences.settings, (idx: nat, s: Setting) => SettingRow(u.id, idx, s));
    var activityLog := AppendRows(u.activityLog, (idx: nat, d: DataEntry) => ActivityRow(u.id, idx, d));
    var transactions := AppendRows(u.transactions, (idx: nat, d: DataEntry) => TransactionRow(u.id, idx, d));
    var messages, attachments := MessageRows(u.id, u.messages);
    var pgSocialMedia := SocialMediaRow(u);
    var posts := AppendRows(u.socialMedia.posts, (idx: nat, d: DataEntry) => PostRow(u.id, idx, d));
    var groups := AppendRows(u.socialMedia.groups, (idx: nat, g: Group) => GroupRow(u.id, g));
    var pgLargeData := LargeDataRow(u);
    t := TransformedUser(pgUser, pgAddress, pgProfile, education, experience, pgPreferences, settings,
                         activityLog, transactions, messages, attachments, pgSocialMedia, posts, groups,
                         pgLargeData);
    var f := Flatten(u);
    assert education == f.education;
    assert experience == f.experience;
    assert settings == f.settings;
    assert activityLog == f.activityLog;
    assert transactions == f.transactions;
    assert messages == f.messages;
    assert posts == f.posts;
    assert groups == f.groups;
  }

  /**
   * The one-per-user rows of `Transform`: each carries the user's id as its
   * own id and (except `users`) as its user id, and copies every scalar field
   * of the document unchanged; the JSON columns encode the coordinates, the
   * interests, the skills, the notification flags and the connections.
   */
  lemma FlattenPerUserRows(u: User)
    ensures var t := Flatten(u); var a := u.address; var n := u.preferences.notifications; var l := u.largeData;
      && t.user == PGUser(u.id, u.username, u.email, u.firstName, u.lastName, u.age, u.createdAt, u.updatedAt)
      && t.address == PGAddress(u.id, u.id, a.street, a.city, a.state, a.zipCode, a.country,
                                CoordinatesJson(a.coordinates.lat, a.coordinates.lng))
      && t.profile == PGProfile(u.id, u.id, u.profile.bio, StringsJson(u.profile.interests), StringsJson(u.profile.skills))
      && t.preferences == PGPreferences(u.id, u.id, u.preferences.language, u.preferences.timezone,
                                        NotificationsJson(n.email, n.push, n.sms))
      && t.socialMedia == PGSocialMedia(u.id, u.id, StringsJson(u.socialMedia.connections))
      && t.largeData == PGLargeData(u.id, u.id, l.blob1, l.blob2, l.blob3, l.blob4, l.blob5)
  {
  }

  /**
   * The child tables of `Transform`: one row per element, in order. The i-th
   * row of an indexed table has id `ChildId(user id, i)`, the user's id as its
   * parent key, and every field of the i-th element; messages and groups keep
   * their own string ids.
   */
  lemma FlattenChildRows(u: User)
    ensures var t := Flatten(u); var es := u.profile.education;
      |t.education| == |es| && forall i :: 0 <= i < |es| ==>
        t.education[i] == PGEducation(ChildId(u.id, i), u.id, es[i].institution, es[i].degree, es[i].year, es[i].description)
    ensures var t := Flatten(u); var xs := u.profile.experience;
      |t.experience| == |xs| && forall i :: 0 <= i < |xs| ==>
        t.experience[i] == PGExperience(ChildId(u.id, i), u.id, xs[i].company, xs[i].position, xs[i].duration, xs[i].description)
    ensures var t := Flatten(u); var ss := u.preferences.settings;
      |t.settings| == |ss| && forall i :: 0 <= i < |ss| ==>
        t.settings[i] == PGSettings(ChildId(u.id, i), u.id, ss[i].key, ss[i].value, ss[i].timestamp, ss[i].metadata)
    ensures var t := Flatten(u); var ls := u.activityLog;
      |t.activityLog| == |ls| && forall i :: 0 <= i < |ls| ==>
        t.activityLog[i] == PGActivityLog(ChildId(u.id, i), u.id, ls[i].key, ls[i].value, ls[i].timestamp, ls[i].metadata)
    ensures var t := Flatten(u); var ts := u.transactions;
      |t.transactions| == |ts| && forall i :: 0 <= i < |ts| ==>
        t.transactions[i] == PGTransactions(ChildId(u.id, i), u.id, ts[i].key, ts[i].value, ts[i].timestamp, ts[i].metadata)
    ensures var t := Flatten(u); var ms := u.messages;
      |t.messages| == |ms| && forall i :: 0 <= i < |ms| ==>
        t.messages[i] == PGMessages(ms[i].id, u.id, ms[i].sender, ms[i].recipient, ms[i].subject, ms[i].body,
                                    ms[i].timestamp, ms[i].read)
    ensures var t := Flatten(u); var ps := u.socialMedia.posts;
      |t.posts| == |ps| && forall i :: 0 <= i < |ps| ==>
        t.posts[i] == PGPosts(ChildId(u.id, i), u.id, ps[i].key, ps[i].value, ps[i].timestamp, ps[i].metadata)
    ensures var t := Flatten(u); var gs := u.socialMedia.groups;
      |t.groups| == |gs| && forall i :: 0 <= i < |gs| ==>
        t.groups[i] == PGGroups(gs[i].id, u.id, gs[i].name, gs[i].joined)
  {
  }

  /**
   * The attachment rows: as many as there are attachments over all messages,
   * message by message and, within a message, attachment by attachment; the
   * row of the j-th attachment of message i has id `ChildId(user id, j)` and
   * that message's id.
   */
  lemma {:induction false} AttachmentsLayout(userId: int, ms: seq<Message>)
    ensures |AttachmentsOf(userId, ms)| == AttachmentCount(ms)
    ensures forall i :: 0 <= i < |ms| ==> Offset(ms, i) + |ms[i].attachments| <= AttachmentCount(ms)
    ensures forall i, j :: 0 <= i < |ms| && 0 <= j < |ms[i].attachments| ==>
      AttachmentsOf(userId, ms)[Offset(ms, i) + j] == AttachmentRow(userId, j, ms[i].id, ms[i].attachments[j])
  {
    AttachmentsLength(userId, ms);
    forall i | 0 <= i < |ms|
      ensures Offset(ms, i) + |ms[i].attachments| <= AttachmentCount(ms)
    {
      OffsetBound(ms, i);
    }
    forall i, j | 0 <= i < |ms| && 0 <= j < |ms[i].attachments|
      ensures AttachmentsOf(userId, ms)[Offset(ms, i) + j] == AttachmentRow(userId, j, ms[i].id, ms[i].attachments[j])
    {
      AttachmentAt(userId, ms, i, j);
    }
  }

  lemma {:induction false} AttachmentsLength(userId: int, ms: seq<Message>)
    ensures |AttachmentsOf(userId, ms)| == AttachmentCount(ms)
  {
    if ms != [] {
      AttachmentsLength(userId, ms[..|ms| - 1]);
    }
  }

  /** The attachments of message i fit after those of the messages before it. */
  lemma {:induction false} OffsetBound(ms: seq<Message>, i: nat)
    requires i < |ms|
    ensures Offset(ms, i) + |ms[i].attachments| <= AttachmentCount(ms)
  {
    var n := |ms| - 1;
    var init := ms[..n];
    if i < n {
      assert ms[..i] == init[..i];
      assert init[i] == ms[i];
      OffsetBound(init, i);
    } else {
      assert ms[..i] == init;
    }
  }

  /** The row of the j-th attachment of message i, where `AttachmentsLayout` says it is. */
  lemma {:induction false} AttachmentAt(userId: int, ms: seq<Message>, i: nat, j: nat)
    requires i < |ms| && j < |ms[i].attachments|
    ensures Offset(ms, i) + j < |AttachmentsOf(userId, ms)|
    ensures AttachmentsOf(userId, ms)[Offset(ms, i) + j] == AttachmentRow(userId, j, ms[i].id, ms[i].attachments[j])
  {
    var n := |ms| - 1;
    var init := ms[..n];
    var front := AttachmentsOf(userId, init);
    var last := AttachmentRows(userId, ms[n]);
    assert AttachmentsOf(userId, ms) == front + last;
    AttachmentsLength(userId, init);
    if i < n {
      assert ms[..i] == init[..i];
      assert init[i] == ms[i];
      AttachmentAt(userId, init, i, j);
    } else {
      assert ms[..i] == init;
      assert last[j] == AttachmentRow(userId, j, ms[n].id, ms[n].attachments[j]);
    }
  }

  /**
   * Because the index restarts for every message, two messages that both have
   * attachments give their first attachments the same id.
   */
  lemma AttachmentIdsRepeat(u: User)
    requires |u.messages| >= 2 && |u.messages[0].attachments| > 0 && |u.messages[1].attachments| > 0
    ensures var rows := Flatten(u).attachments; var k := |u.messages[0].attachments|;
      k < |rows| && rows[0].id == rows[k].id == ChildId(u.id, 0)
      && rows[0].messageId == u.messages[0].id && rows[k].messageId == u.messages[1].id
  {
    var ms := u.messages;
    var rows := Flatten(u).attachments;
    var k := |ms[0].attachments|;
    AttachmentsLayout(u.id, ms);
    assert rows == AttachmentsOf(u.id, ms);
    assert ms[..0] == [];
    assert ms[..1][..0] == [];
    assert Offset(ms, 0) == 0;
    assert Offset(ms, 1) == k;
    assert rows[Offset(ms, 0) + 0] == AttachmentRow(u.id, 0, ms[0].id, ms[0].attachments[0]);
    assert rows[Offset(ms, 1) + 0] == AttachmentRow(u.id, 0, ms[1].id, ms[1].attachments[0]);
  }

  /** Below 10000 children per user, a child id names one user and one index. */
  lemma ChildIdInjective(a: int, i: nat, b: int, j: nat)
    requires i < IdStride && j < IdStride
    requires ChildId(a, i) == ChildId(b, j)
    ensures a == b && i == j
  {
  }

  // ---------------------------------------------------------------------------
  // Load
  // ---------------------------------------------------------------------------

  /** The rows of one `CreateInBatches` call, tagged with their table. */
  datatype Rows =
    | UserRows(users: seq<PGUser>)
    | AddressRows(addresses: seq<PGAddress>)
    | ProfileRows(profiles: seq<PGProfile>)
    | EducationRows(education: seq<PGEducation>)
    | ExperienceRows(experience: seq<PGExperience>)
    | PreferencesRows(preferences: seq<PGPreferences>)
    | SettingsRows(settings: seq<PGSettings>)
    | ActivityLogRows(activityLog: seq<PGActivityLog>)
    | TransactionsRows(transactions: seq<PGTransactions>)
    | MessagesRows(messages: seq<PGMessages>)
    | AttachmentsRows(attachments: seq<PGAttachments>)
    | SocialMediaRows(socialMedia: seq<PGSocialMedia>)
    | PostsRows(posts: seq<PGPosts>)
    | GroupsRows(groups: seq<PGGroups>)
    | LargeDataRows(largeData: seq<PGLargeData>)

  /** Where a table stands in the dependency order `Load` inserts in. */
  function TableIndex(r: Rows): nat {
    match r
    case UserRows(_) => 0
    case AddressRows(_) => 1
    case ProfileRows(_) => 2
    case EducationRows(_) => 3
    case ExperienceRows(_) => 4
    case PreferencesRows(_) => 5
    case SettingsRows(_) => 6
    case ActivityLogRows(_) => 7
    case TransactionsRows(_) => 8
    case MessagesRows(_) => 9
    case AttachmentsRows(_) => 10
    case SocialMediaRows(_) => 11
    case PostsRows(_) => 12
    case GroupsRows(_) => 13
    case LargeDataRows(_) => 14
  }

  const TableCount := 15

  function Size(r: Rows): nat {
    match r
    case UserRows(xs) => |xs|
    case AddressRows(xs) => |xs|
    case ProfileRows(xs) => |xs|
    case EducationRows(xs) => |xs|
    case ExperienceRows(xs) => |xs|
    case PreferencesRows(xs) => |xs|
    case SettingsRows(xs) => |xs|
    case ActivityLogRows(xs) => |xs|
    case TransactionsRows(xs) => |xs|
    case MessagesRows(xs) => |xs|
    case AttachmentsRows(xs) => |xs|
    case SocialMediaRows(xs) => |xs|
    case PostsRows(xs) => |xs|
    case GroupsRows(xs) => |xs|
    case LargeDataRows(xs) => |xs|
  }

  /** The prefix of the error a failed insert of these rows returns. */
  function InsertTag(r: Rows): string {
    match r
    case UserRows(_) => "failed to insert users"
    case AddressRows(_) => "failed to insert addresses"
    case ProfileRows(_) => "failed to insert profiles"
    case EducationRows(_) => "failed to insert education"
    case ExperienceRows(_) => "failed to insert experience"
    case PreferencesRows(_) => "failed to insert preferences"
    case SettingsRows(_) => "failed to insert settings"
    case ActivityLogRows(_) => "failed to insert activity log"
    case TransactionsRows(_) => "failed to insert transactions"
    case MessagesRows(_) => "failed to insert messages"
    case AttachmentsRows(_) => "failed to insert attachments"
    case SocialMediaRows(_) => "failed to insert social media"
    case PostsRows(_) => "failed to insert posts"
    case GroupsRows(_) => "failed to insert groups"
    case LargeDataRows(_) => "failed to insert large data"
  }

  /** The fifteen accumulator slices of `Load`. */
  datatype Tables = Tables(
    users: seq<PGUser>, addresses: seq<PGAddress>, profiles: seq<PGProfile>,
    education: seq<PGEducation>, experience: seq<PGExperience>, preferences: seq<PGPreferences>,
    settings: seq<PGSettings>, activityLog: seq<PGActivityLog>, transactions: seq<PGTransactions>,
    messages: seq<PGMessages>, attachments: seq<PGAttachments>, socialMedia: seq<PGSocialMedia>,
    posts: seq<PGPosts>, groups: seq<PGGroups>, largeData: seq<PGLargeData>)

  /** A column of the batch: one value per item, in batch order. */
  function Column<X>(items: seq<TransformedUser>, f: TransformedUser -> X): seq<X> {
    if items == [] then [] else Column(items[..|items| - 1], f) + [f(items[|items| - 1])]
  }

  /** The k-th entry of a column belongs to the k-th item. */
  lemma {:induction false} ColumnAt<X>(items: seq<TransformedUser>, f: TransformedUser -> X)
    ensures |Column(items, f)| == |items|
    ensures forall k :: 0 <= k < |items| ==> Column(items, f)[k] == f(items[k])
  {
    if items != [] {
      ColumnAt(items[..|items| - 1], f);
    }
  }

  /** A column after one more item, and the concatenation of a column of slices after one more item. */
  lemma ColumnSnoc<X>(items: seq<TransformedUser>, k: nat, f: TransformedUser -> seq<X>)
    requires k < |items|
    ensures Bucket.Concat(Column(items[..k + 1], f)) == Bucket.Concat(Column(items[..k], f)) + f(items[k])
  {
    assert items[..k + 1][..k] == items[..k];
    Bucket.ConcatSnoc(Column(items[..k], f), f(items[k]));
  }

  /**
   * The accumulators after the collection loop: one row per item, in batch
   * order, for each per-user table; the items' child rows one item after the
   * other for each child table.
   */
  function Gathered(items: seq<TransformedUser>): Tables {
    Tables(
      Column(items, (t: TransformedUser) => t.user),
      Column(items, (t: TransformedUser) => t.address),
      Column(items, (t: TransformedUser) => t.profile),
      Bucket.Concat(Column(items, (t: TransformedUser) => t.education)),
      Bucket.Concat(Column(items, (t: TransformedUser) => t.experience)),
      Column(items, (t: TransformedUser) => t.preferences),
      Bucket.Concat(Column(items, (t: TransformedUser) => t.settings)),
      Bucket.Concat(Column(items, (t: TransformedUser) => t.activityLog)),
      Bucket.Concat(Column(items, (t: TransformedUser) => t.transactions)),
      Bucket.Concat(Column(items, (t: TransformedUser) => t.messages)),
      Bucket.Concat(Column(items, (t: TransformedUser) => t.attachments)),
      Column(items, (t: TransformedUser) => t.socialMedia),
      Bucket.Concat(Column(items, (t: TransformedUser) => t.posts)),
      Bucket.Concat(Column(items, (t: TransformedUser) => t.groups)),
      Column(items, (t: TransformedUser) => t.largeData))
  }

  /** Each per-user table of the batch holds one row per item, the k-th row from the k-th item. */
  lemma GatheredPerUser(items: seq<TransformedUser>)
    ensures var g := Gathered(items);
      && |g.users| == |g.addresses| == |g.profiles| == |items|
      && |g.preferences| == |g.socialMedia| == |g.largeData| == |items|
      && forall k :: 0 <= k < |items| ==>
           (g.users[k] == items[k].user && g.addresses[k] == items[k].address && g.profiles[k] == items[k].profile
            && g.preferences[k] == items[k].preferences && g.socialMedia[k] == items[k].socialMedia
            && g.largeData[k] == items[k].largeData)
  {
    ColumnAt(items, (t: TransformedUser) => t.user);
    ColumnAt(items, (t: TransformedUser) => t.address);
    ColumnAt(items, (t: TransformedUser) => t.profile);
    ColumnAt(items, (t: TransformedUser) => t.preferences);
    ColumnAt(items, (t: TransformedUser) => t.socialMedia);
    ColumnAt(items, (t: TransformedUser) => t.largeData);
  }

  /** The accumulators after one more item. */
  lemma GatheredSnoc(items: seq<TransformedUser>, k: nat)
    requires k < |items|
    ensures var g := Gathered(items[..k]); var t := items[k];
      Gathered(items[..k + 1]) == Tables(
        g.users + [t.user], g.addresses + [t.address], g.profiles + [t.profile],
        g.education + t.education, g.experience + t.experience, g.preferences + [t.preferences],
        g.settings + t.settings, g.activityLog + t.activityLog, g.transactions + t.transactions,
        g.messages + t.messages, g.attachments + t.attachments, g.socialMedia + [t.socialMedia],
        g.posts + t.posts, g.groups + t.groups, g.largeData + [t.largeData])
  {
    assert items[..k + 1][..k] == items[..k];
    ColumnSnoc(items, k, (t: TransformedUser) => t.education);
    ColumnSnoc(items, k, (t: TransformedUser) => t.experience);
    ColumnSnoc(items, k, (t: TransformedUser) => t.settings);
    ColumnSnoc(items, k, (t: TransformedUser) => t.activityLog);
    ColumnSnoc(items, k, (t: TransformedUser) => t.transactions);
    ColumnSnoc(items, k, (t: TransformedUser) => t.messages);
    ColumnSnoc(items, k, (t: TransformedUser) => t.attachments);
    ColumnSnoc(items, k, (t: TransformedUser) => t.posts);
    ColumnSnoc(items, k, (t: TransformedUser) => t.groups);
  }

  /** The collection loop of `Load`. */
  method Gather(items: seq<TransformedUser>) returns (all: Tables)
    ensures all == Gathered(items)
  {
    var users: seq<PGUser> := [];
    var addresses: seq<PGAddress> := [];
    var profiles: seq<PGProfile> := [];
    var allEducation: seq<PGEducation> := [];
    var allExperience: seq<PGExperience> := [];
    var preferences: seq<PGPreferences> := [];
    var allSettings: seq<PGSettings> := [];
    var allActivityLog: seq<PGActivityLog> := [];
    var allTransactions: seq<PGTransactions> := [];
    var allMessages: seq<PGMessages> := [];
    var allAttachments: seq<PGAttachments> := [];
    var socialMedia: seq<PGSocialMedia> := [];
    var allPosts: seq<PGPosts> := [];
    var allGroups: seq<PGGroups> := [];
    var largeData: seq<PGLargeData> := [];
    for k := 0 to |items|
      invariant Tables(users, addresses, profiles, allEducation, allExperience, preferences, allSettings,
                       allActivityLog, allTransactions, allMessages, allAttachments, socialMedia, allPosts,
                       allGroups, largeData) == Gathered(items[..k])
    {
      GatheredSnoc(items, k);
      var item := items[k];
      users := users + [item.user];
      addresses := addresses + [item.address];
      profiles := profiles + [item.profile];
      allEducation := allEducation + item.education;
      allExperience := allExperience + item.experience;
      preferences := preferences + [item.preferences];
      allSettings := allSettings + item.settings;
      allActivityLog := allActivityLog + item.activityLog;
      allTransactions := allTransactions + item.transactions;
      allMessages := allMessages + item.messages;
      allAttachments := allAttachments + item.attachments;
      socialMedia := socialMedia + [item.socialMedia];
      allPosts := allPosts + item.posts;
      allGroups := allGroups + item.groups;
      largeData := largeData + [item.largeData];
    }
    assert items[..|items|] == items;
    all := Tables(users, addresses, profiles, allEducation, allExperience, preferences, allSettings,
                  allActivityLog, allTransactions, allMessages, allAttachments, socialMedia, allPosts,
                  allGroups, largeData);
  }

  /** The accumulator inserted at position `s` of the dependency order. */
  function RowsAt(c: Tables, s: nat): (r: Rows)
    requires s < TableCount
    ensures TableIndex(r) == s
  {
    if s == 0 then UserRows(c.users)
    else if s == 1 then AddressRows(c.addresses)
    else if s == 2 then ProfileRows(c.profiles)
    else if s == 3 then EducationRows(c.education)
    else if s == 4 then ExperienceRows(c.experience)
    else if s == 5 then PreferencesRows(c.preferences)
    else if s == 6 then SettingsRows(c.settings)
    else if s == 7 then ActivityLogRows(c.activityLog)
    else if s == 8 then TransactionsRows(c.transactions)
    else if s == 9 then MessagesRows(c.messages)
    else if s == 10 then AttachmentsRows(c.attachments)
    else if s == 11 then SocialMediaRows(c.socialMedia)
    else if s == 12 then PostsRows(c.posts)
    else if s == 13 then GroupsRows(c.groups)
    else LargeDataRows(c.largeData)
  }

  /** The child tables, whose insert `Load` skips when they are empty. */
  predicate Optional(s: nat) {
    s == 3 || s == 4 || s == 6 || s == 7 || s == 8 || s == 9 || s == 10 || s == 12 || s == 13
  }

  /** An accumulator `Load` does not insert: an empty child table. */
  predicate Skippable(x: Rows) {
    Optional(TableIndex(x)) && Size(x) == 0
  }

  /** The fifteen accumulators in dependency order. */
  function AllRows(c: Tables): (r: seq<Rows>)
    ensures |r| == TableCount
    ensures forall i :: 0 <= i < |r| ==> r[i] == RowsAt(c, i) && TableIndex(r[i]) == i
  {
    seq(TableCount, i requires 0 <= i < TableCount => RowsAt(c, i))
  }

  /** The elements of `xs` that `skip` does not reject, in their order. */
  function Filter<X>(xs: seq<X>, skip: X -> bool): seq<X>
    decreases |xs|
  {
    if xs == [] then []
    else (if skip(xs[0]) then [] else [xs[0]]) + Filter(xs[1..], skip)
  }

  /** The inserts `Load` attempts for the accumulated tables, if every one succeeds. */
  function Plan(c: Tables): seq<Rows> {
    Filter(AllRows(c), Skippable)
  }

  /** Only elements that are not skipped are kept. */
  lemma {:induction false} FilterSound<X>(xs: seq<X>, skip: X -> bool)
    ensures forall x :: x in Filter(xs, skip) ==> x in xs && !skip(x)
    decreases |xs|
  {
    if xs != [] {
      FilterSound(xs[1..], skip);
      assert Filter(xs, skip) == (if skip(xs[0]) then [] else [xs[0]]) + Filter(xs[1..], skip);
      assert forall x :: x in xs[1..] ==> x in xs;
    }
  }

  /** Every element that is not skipped is kept. */
  lemma {:induction false} FilterComplete<X>(xs: seq<X>, skip: X -> bool)
    ensures forall x :: x in xs && !skip(x) ==> x in Filter(xs, skip)
    decreases |xs|
  {
    if xs != [] {
      FilterComplete(xs[1..], skip);
      assert Filter(xs, skip) == (if skip(xs[0]) then [] else [xs[0]]) + Filter(xs[1..], skip);
      assert forall x :: x in xs ==> x == xs[0] || x in xs[1..];
    }
  }

  ghost predicate Increasing<X>(xs: seq<X>, key: X -> nat) {
    forall i, j :: 0 <= i < j < |xs| ==> key(xs[i]) < key(xs[j])
  }

  /** Leaving elements out keeps an increasing order. */
  lemma {:induction false} FilterOrdered<X>(xs: seq<X>, skip: X -> bool, key: X -> nat, a: nat, b: nat)
    requires Increasing(xs, key) && a < b < |Filter(xs, skip)|
    ensures key(Filter(xs, skip)[a]) < key(Filter(xs, skip)[b])
    decreases |xs|
  {
    var tail := xs[1..];
    var rest := Filter(tail, skip);
    assert forall i :: 0 <= i < |tail| ==> tail[i] == xs[i + 1];
    assert Increasing(tail, key);
    if skip(xs[0]) {
      assert Filter(xs, skip) == rest;
      FilterOrdered(tail, skip, key, a, b);
    } else {
      assert Filter(xs, skip) == [xs[0]] + rest;
      if a > 0 {
        FilterOrdered(tail, skip, key, a - 1, b - 1);
      } else {
        FilterSound(tail, skip);
        assert rest[b - 1] in tail;
        var i :| 0 <= i < |tail| && tail[i] == rest[b - 1];
        assert key(xs[0]) < key(xs[i + 1]);
      }
    }
  }

  /**
   * The insert order of `Load`: users, addresses, profiles, education,
   * experience, preferences, settings, activity log, transactions, messages,
   * attachments, social media, posts, groups, large data, each table with its
   * accumulated rows, and a table is inserted exactly when it is not an empty
   * child table.
   */
  lemma PlanShape(c: Tables)
    ensures var p := Plan(c);
      forall a, b :: 0 <= a < b < |p| ==> TableIndex(p[a]) < TableIndex(p[b])
    ensures var p := Plan(c);
      forall k :: 0 <= k < |p| ==> TableIndex(p[k]) < TableCount && p[k] == RowsAt(c, TableIndex(p[k]))
    ensures forall t :: 0 <= t < TableCount ==> (RowsAt(c, t) in Plan(c) <==> !Skippable(RowsAt(c, t)))
  {
    var all, p := AllRows(c), Plan(c);
    assert Increasing(all, TableIndex);
    forall a, b | 0 <= a < b < |p|
      ensures TableIndex(p[a]) < TableIndex(p[b])
    {
      FilterOrdered(all, Skippable, TableIndex, a, b);
    }
    FilterSound(all, Skippable);
    FilterComplete(all, Skippable);
    forall k | 0 <= k < |p|
      ensures TableIndex(p[k]) < TableCount && p[k] == RowsAt(c, TableIndex(p[k]))
    {
      assert p[k] in all;
      var i :| 0 <= i < |all| && all[i] == p[k];
    }
    forall t | 0 <= t < TableCount
      ensures RowsAt(c, t) in all
    {
      assert all[t] == RowsAt(c, t);
    }
  }

  /** A database: the answer to an insert, given the inserts made before it. */
  type Db = (seq<Rows>, Rows) -> Outcome

  datatype LoadResult = LoadResult(outcome: Outcome, inserts: seq<Rows>)

  /** Attempt the planned inserts in order after `done`, up to the first one that fails. */
  function Chain(plan: seq<Rows>, db: Db, done: seq<Rows>): LoadResult
    decreases |plan|
  {
    if plan == [] then LoadResult(Pass, done)
    else
      var o := db(done, plan[0]);
      if o.Fail? then LoadResult(Fail(Stage(InsertTag(plan[0]), o.error)), done + [plan[0]])
      else Chain(plan[1..], db, done + [plan[0]])
  }

  /** What `Load` does with a batch. */
  function LoadSpec(items: seq<TransformedUser>, db: Db): LoadResult {
    if items == [] then LoadResult(Pass, []) else Chain(Plan(Gathered(items)), db, [])
  }

  /** A chain that succeeds made every planned insert, and each one succeeded. */
  lemma {:induction false} ChainPasses(plan: seq<Rows>, db: Db, done: seq<Rows>)
    requires Chain(plan, db, done).outcome.Pass?
    ensures Chain(plan, db, done).inserts == done + plan
    ensures forall k :: 0 <= k < |plan| ==> db(done + plan[..k], plan[k]).Pass?
    decreases |plan|
  {
    if plan == [] {
      assert done + plan == done;
    } else {
      var x := plan[0];
      var rest := plan[1..];
      ChainPasses(rest, db, done + [x]);
      assert plan == [x] + rest;
      assert done + plan == (done + [x]) + rest;
      forall k | 0 <= k < |plan|
        ensures db(done + plan[..k], plan[k]).Pass?
      {
        if k == 0 {
          assert done + plan[..0] == done;
        } else {
          assert plan[..k] == [x] + rest[..k - 1];
          assert done + plan[..k] == (done + [x]) + rest[..k - 1];
          assert plan[k] == rest[k - 1];
        }
      }
    }
  }

  /** When every planned insert succeeds, the chain makes them all and succeeds. */
  lemma {:induction false} ChainAllPass(plan: seq<Rows>, db: Db, done: seq<Rows>)
    requires forall k :: 0 <= k < |plan| ==> db(done + plan[..k], plan[k]).Pass?
    ensures Chain(plan, db, done) == LoadResult(Pass, done + plan)
    decreases |plan|
  {
    if plan == [] {
      assert done + plan == done;
    } else {
      var x := plan[0];
      var rest := plan[1..];
      assert done + plan[..0] == done;
      forall k | 0 <= k < |rest|
        ensures db((done + [x]) + rest[..k], rest[k]).Pass?
      {
        assert plan[..k + 1] == [x] + rest[..k];
        assert done + plan[..k + 1] == (done + [x]) + rest[..k];
        assert plan[k + 1] == rest[k];
      }
      ChainAllPass(rest, db, done + [x]);
      assert done + plan == (done + [x]) + rest;
    }
  }

  /**
   * The first failing insert stops the chain: the inserts are the planned ones
   * up to and including it, and the error is its error tagged with its table.
   */
  lemma {:induction false} ChainStopsAt(plan: seq<Rows>, db: Db, done: seq<Rows>, m: nat)
    requires m < |plan|
    requires forall k :: 0 <= k < m ==> db(done + plan[..k], plan[k]).Pass?
    requires db(done + plan[..m], plan[m]).Fail?
    ensures Chain(plan, db, done)
      == LoadResult(Fail(Stage(InsertTag(plan[m]), db(done + plan[..m], plan[m]).error)), done + plan[..m + 1])
    decreases m
  {
    var x := plan[0];
    var rest := plan[1..];
    assert done + plan[..0] == done;
    if m == 0 {
      assert plan[..1] == [x];
    } else {
      forall k | 0 <= k < m - 1
        ensures db((done + [x]) + rest[..k], rest[k]).Pass?
      {
        assert plan[..k + 1] == [x] + rest[..k];
        assert done + plan[..k + 1] == (done + [x]) + rest[..k];
        assert plan[k + 1] == rest[k];
      }
      assert plan[..m] == [x] + rest[..m - 1];
      assert done + plan[..m] == (done + [x]) + rest[..m - 1];
      ChainStopsAt(rest, db, done + [x], m - 1);
      assert plan[..m + 1] == [x] + rest[..m];
      assert done + plan[..m + 1] == (done + [x]) + rest[..m];
    }
  }

  /**
   * `Load` returns nil exactly when every planned insert succeeds, and an empty
   * batch makes no insert at all.
   */
  lemma LoadSucceedsIff(items: seq<TransformedUser>, db: Db)
    ensures items == [] ==> LoadSpec(items, db) == LoadResult(Pass, [])
    ensures items != [] ==> var p := Plan(Gathered(items));
      (LoadSpec(items, db).outcome.Pass? <==> forall k :: 0 <= k < |p| ==> db(p[..k], p[k]).Pass?)
  {
    if items != [] {
      var p := Plan(Gathered(items));
      assert forall k :: 0 <= k <= |p| ==> [] + p[..k] == p[..k];
      if Chain(p, db, []).outcome.Pass? {
        ChainPasses(p, db, []);
      }
      if forall k :: 0 <= k < |p| ==> db(p[..k], p[k]).Pass? {
        ChainAllPass(p, db, []);
      }
    }
  }

  /**
   * The first planned insert that fails ends `Load`: the inserts attempted are
   * the planned ones up to and including it, and the error names its table.
   */
  lemma LoadStopsAtFirstFailure(items: seq<TransformedUser>, db: Db)
    requires items != []
    ensures var p := Plan(Gathered(items));
      forall m :: 0 <= m < |p| && (forall k :: 0 <= k < m ==> db(p[..k], p[k]).Pass?) && db(p[..m], p[m]).Fail? ==>
        LoadSpec(items, db) == LoadResult(Fail(Stage(InsertTag(p[m]), db(p[..m], p[m]).error)), p[..m + 1])
  {
    var p := Plan(Gathered(items));
    assert forall k :: 0 <= k <= |p| ==> [] + p[..k] == p[..k];
    forall m | 0 <= m < |p| && (forall k :: 0 <= k < m ==> db(p[..k], p[k]).Pass?) && db(p[..m], p[m]).Fail?
      ensures LoadSpec(items, db) == LoadResult(Fail(Stage(InsertTag(p[m]), db(p[..m], p[m]).error)), p[..m + 1])
    {
      ChainStopsAt(p, db, [], m);
    }
  }

  /**
   * The insert chain position by position: skip an empty child table, or
   * insert the table's rows and stop with the tagged error if that fails.
   */
  function Stages(c: Tables, s: nat, db: Db, done: seq<Rows>): LoadResult
    requires s <= TableCount
    decreases TableCount - s
  {
    if s == TableCount then LoadResult(Pass, done)
    else if Skippable(RowsAt(c, s)) then Stages(c, s + 1, db, done)
    else
      var x := RowsAt(c, s);
      var o := db(done, x);
      if o.Fail? then LoadResult(Fail(Stage(InsertTag(x), o.error)), done + [x])
      else Stages(c, s + 1, db, done + [x])
  }

  /** Going position by position is attempting the planned inserts in order. */
  lemma {:induction false} StagesAreChain(c: Tables, s: nat, db: Db, done: seq<Rows>)
    requires s <= TableCount
    ensures Stages(c, s, db, done) == Chain(Filter(AllRows(c)[s..], Skippable), db, done)
    decreases TableCount - s
  {
    var rs := AllRows(c)[s..];
    if s == TableCount {
      assert rs == [];
    } else {
      var x := RowsAt(c, s);
      assert rs[0] == x && rs[1..] == AllRows(c)[s + 1..];
      var rest := Filter(AllRows(c)[s + 1..], Skippable);
      if Skippable(x) {
        assert Filter(rs, Skippable) == rest;
        StagesAreChain(c, s + 1, db, done);
      } else {
        var p := Filter(rs, Skippable);
        assert p == [x] + rest;
        assert p != [] && p[0] == x && p[1..] == rest;
        StagesAreChain(c, s + 1, db, done + [x]);
      }
    }
  }

  /** The inserts of users, addresses and profiles. */
  method InsertUserTables(c: Tables, db: Db, done: seq<Rows>) returns (r: Outcome, inserts: seq<Rows>)
    ensures r.Fail? ==> LoadResult(r, inserts) == Stages(c, 0, db, done)
    ensures r.Pass? ==> Stages(c, 0, db, done) == Stages(c, 3, db, inserts)
  {
    inserts := done;
    var o: Outcome;
    o := db(inserts, UserRows(c.users));
    inserts := inserts + [UserRows(c.users)];
    if o.Fail? {
      return Fail(Stage("failed to insert users", o.error)), inserts;
    }
    o := db(inserts, AddressRows(c.addresses));
    inserts := inserts + [AddressRows(c.addresses)];
    if o.Fail? {
      return Fail(Stage("failed to insert addresses", o.error)), inserts;
    }
    o := db(inserts, ProfileRows(c.profiles));
    inserts := inserts + [ProfileRows(c.profiles)];
    if o.Fail? {
      return Fail(Stage("failed to insert profiles", o.error)), inserts;
    }
    r := Pass;
  }

  /** The inserts of education and experience. */
  method InsertProfileTables(c: Tables, db: Db, done: seq<Rows>) returns (r: Outcome, inserts: seq<Rows>)
    ensures r.Fail? ==> LoadResult(r, inserts) == Stages(c, 3, db, done)
    ensures r.Pass? ==> Stages(c, 3, db, done) == Stages(c, 5, db, inserts)
  {
    inserts := done;
    var o: Outcome;
    if |c.education| > 0 {
      o := db(inserts, EducationRows(c.education));
      inserts := inserts + [EducationRows(c.education)];
      if o.Fail? {
        return Fail(Stage("failed to insert education", o.error)), inserts;
      }
    }
    if |c.experience| > 0 {
      o := db(inserts, ExperienceRows(c.experience));
      inserts := inserts + [ExperienceRows(c.experience)];
      if o.Fail? {
        return Fail(Stage("failed to insert experience", o.error)), inserts;
      }
    }
    r := Pass;
  }

  /** The inserts of preferences, settings and activity log. */
  method InsertPreferenceTables(c: Tables, db: Db, done: seq<Rows>) returns (r: Outcome, inserts: seq<Rows>)
    ensures r.Fail? ==> LoadResult(r, inserts) == Stages(c, 5, db, done)
    ensures r.Pass? ==> Stages(c, 5, db, done) == Stages(c, 8, db, inserts)
  {
    inserts := done;
    var o: Outcome;
    o := db(inserts, PreferencesRows(c.preferences));
    inserts := inserts + [PreferencesRows(c.preferences)];
    if o.Fail? {
      return Fail(Stage("failed to insert preferences", o.error)), inserts;
    }
    if |c.settings| > 0 {
      o := db(inserts, SettingsRows(c.settings));
      inserts := inserts + [SettingsRows(c.settings)];
      if o.Fail? {
        return Fail(Stage("failed to insert settings", o.error)), inserts;
      }
    }
    if |c.activityLog| > 0 {
      o := db(inserts, ActivityLogRows(c.activityLog));
      inserts := inserts + [ActivityLogRows(c.activityLog)];
      if o.Fail? {
        return Fail(Stage("failed to insert activity log", o.error)), inserts;
      }
    }
    r := Pass;
  }

  /** The inserts of transactions, messages and attachments. */
  method InsertMessageTables(c: Tables, db: Db, done: seq<Rows>) returns (r: Outcome, inserts: seq<Rows>)
    ensures r.Fail? ==> LoadResult(r, inserts) == Stages(c, 8, db, done)
    ensures r.Pass? ==> Stages(c, 8, db, done) == Stages(c, 11, db, inserts)
  {
    inserts := done;
    var o: Outcome;
    if |c.transactions| > 0 {
      o := db(inserts, TransactionsRows(c.transactions));
      inserts := inserts + [TransactionsRows(c.transactions)];
      if o.Fail? {
        return Fail(Stage("failed to insert transactions", o.error)), inserts;
      }
    }
    if |c.messages| > 0 {
      o := db(inserts, MessagesRows(c.messages));
      inserts := inserts + [MessagesRows(c.messages)];
      if o.Fail? {
        return Fail(Stage("failed to insert messages", o.error)), inserts;
      }
    }
    if |c.attachments| > 0 {
      o := db(inserts, AttachmentsRows(c.attachments));
      inserts := inserts + [AttachmentsRows(c.attachments)];
      if o.Fail? {
        return Fail(Stage("failed to insert attachments", o.error)), inserts;
      }
    }
    r := Pass;
  }

  /** The inserts of social media, posts, groups and large data. */
  method InsertSocialTables(c: Tables, db: Db, done: seq<Rows>) returns (r: Outcome, inserts: seq<Rows>)
    ensures r.Fail? ==> LoadResult(r, inserts) == Stages(c, 11, db, done)
    ensures r.Pass? ==> Stages(c, 11, db, done) == Stages(c, 15, db, inserts)
  {
    inserts := done;
    var o: Outcome;
    o := db(inserts, SocialMediaRows(c.socialMedia));
    inserts := inserts + [SocialMediaRows(c.socialMedia)];
    if o.Fail? {
      return Fail(Stage("failed to insert social media", o.error)), inserts;
    }
    if |c.posts| > 0 {
      o := db(inserts, PostsRows(c.posts));
      inserts := inserts + [PostsRows(c.posts)];
      if o.Fail? {
        return Fail(Stage("failed to insert posts", o.error)), inserts;
      }
    }
    if |c.groups| > 0 {
      o := db(inserts, GroupsRows(c.groups));
      inserts := inserts + [GroupsRows(c.groups)];
      if o.Fail? {
        return Fail(Stage("failed to insert groups", o.error)), inserts;
      }
    }
    o := db(inserts, LargeDataRows(c.largeData));
    inserts := inserts + [LargeDataRows(c.largeData)];
    if o.Fail? {
      return Fail(Stage("failed to insert large data", o.error)), inserts;
    }
    r := Pass;
  }

  /**
   * The insert chain of `Load`: each table in dependency order, the child
   * tables only when they have rows, returning at the first failing insert.
   */
  method InsertAll(c: Tables, db: Db) returns (r: Outcome, inserts: seq<Rows>)
    ensures LoadResult(r, inserts) == Stages(c, 0, db, [])
  {
    r, inserts := InsertUserTables(c, db, []);
    if r.Fail? {
      return;
    }
    r, inserts := InsertProfileTables(c, db, inserts);
    if r.Fail? {
      return;
    }
    r, inserts := InsertPreferenceTables(c, db, inserts);
    if r.Fail? {
      return;
    }
    r, inserts := InsertMessageTables(c, db, inserts);
    if r.Fail? {
      return;
    }
    r, inserts := InsertSocialTables(c, db, inserts);
  }

  /** `UserETL.Load`: nothing for an empty batch; otherwise collect, then insert. */
  method Load(items: seq<TransformedUser>, db: Db) returns (r: Outcome, inserts: seq<Rows>)
    ensures items == [] ==> r == Pass && inserts == []
    ensures LoadResult(r, inserts) == LoadSpec(items, db)
  {
    if |items| == 0 {
      return Pass, [];
    }
    var all := Gather(items);
    r, inserts := InsertAll(all, db);
    StagesAreChain(all, 0, db, []);
    assert AllRows(all)[0..] == AllRows(all);
  }

  // ---------------------------------------------------------------------------
  // UserETL as the processor ETL.Run drives
  // ---------------------------------------------------------------------------

  /**
   * `UserETL`'s hooks. `migrate` is what `AutoMigrateAll` returns and
   * `payloads` what the MongoDB read sends, each given the calls made on the
   * processor before; `db` is the database seen by a `Load` after those calls.
   * `Extract` always returns its channel with a nil error: a cursor failure
   * travels as an error payload. `PostProcess` only prints, so it always
   * returns nil.
   */
  function UserProcessor(migrate: Etl.History<TransformedUser> -> Outcome,
                         payloads: Etl.History<TransformedUser> -> seq<Etl.Payload<User>>,
                         db: Etl.History<TransformedUser> -> Db): Etl.Processor<User, TransformedUser>
  {
    Etl.Processor(migrate, (h: Etl.History<TransformedUser>) => Etl.Channel(payloads(h)), Flatten,
                  (h: Etl.History<TransformedUser>, items: seq<TransformedUser>) => LoadSpec(items, db(h)).outcome,
                  (h: Etl.History<TransformedUser>) => Pass)
  }

  /**
   * A user migration run fails only in `PreProcess` or while loading batches,
   * never in `Extract` or `PostProcess`; it returns nil exactly when the
   * migration succeeded and the run reached `PostProcess`.
   */
  lemma UserRunFailures(migrate: Etl.History<TransformedUser> -> Outcome,
                        payloads: Etl.History<TransformedUser> -> seq<Etl.Payload<User>>,
                        db: Etl.History<TransformedUser> -> Db,
                        h: Etl.History<TransformedUser>, s: Bucket.Settings, cancel: Option<nat>)
    ensures var r := Etl.RunSpec(UserProcessor(migrate, payloads, db), h, s, cancel);
      && (r.outcome.Fail? ==>
            r.outcome.error.Stage? && r.outcome.error.tag in [Etl.PreProcessFailed, Etl.RunFailed])
      && (r.outcome.Pass? <==> migrate(h).Pass? && r.calls[|r.calls| - 1] == Etl.PostProcessCall)
  {
  }
}
