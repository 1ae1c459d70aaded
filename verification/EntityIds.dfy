/** Entity ids as text, and the folder ids that travel in them. */
module EntityIds {
  import opened Options
  import opened Text
  import FolderIds

  datatype EntityType = Catalog | Album | Artist | Playlist | Track | Label | Genre | User {
    function Value(): string {
      match this
      case Catalog => "catalog"
      case Album => "album"
      case Artist => "artist"
      case Playlist => "playlist"
      case Track => "track"
      case Label => "label"
      case Genre => "genre"
      case User => "user"
    }
  }

  function TypeOf(value: string): Option<EntityType> {
    if value == "catalog" then Some(Catalog)
    else if value == "album" then Some(Album)
    else if value == "artist" then Some(Artist)
    else if value == "playlist" then Some(Playlist)
    else if value == "track" then Some(Track)
    else if value == "label" then Some(Label)
    else if value == "genre" then Some(Genre)
    else if value == "user" then Some(User)
    else None
  }

  datatype EntityId = EntityId(id: string, kind: EntityType, source: string)

  function ToString(e: EntityId): string {
    "kalinka" + [':'] + (e.source + [':'] + (e.kind.Value() + [':'] + e.id))
  }

  function FromString(s: string): Option<EntityId> {
    var parts := Split(s, ':');
    if |parts| != 4 || parts[0] != "kalinka" then None
    else
      var kind := TypeOf(parts[2]);
      if kind.None? then None else Some(EntityId(parts[3], kind.value, parts[1]))
  }

  /** The text of an id names the scheme, the source, the kind by its word, and the id. */
  lemma TextIs(e: EntityId)
    ensures ToString(e) == "kalinka:" + e.source + ":" + e.kind.Value() + ":" + e.id
  {
    hide EntityType.Value;
  }

  lemma TypeIs(value: string)
    ensures TypeOf(value).Some? ==> TypeOf(value).value.Value() == value
  {}

  lemma {:induction false} SplitCount(a: string, b: string, c: char)
    ensures |Split(a + [c] + b, c)| == |Split(a, c)| + |Split(b, c)|
    decreases |a|
  {
    assert (a + [c] + b)[|a|] == c;
    if c in a {
      HeadTail(a, c);
      var head, tail := Head(a, c), Tail(a, c);
      assert a + [c] + b == head + [c] + (tail + [c] + b);
      SplitAppend(head, c, tail + [c] + b);
      SplitCount(tail, b, c);
    } else {
      SplitAppend(a, c, b);
    }
  }

  lemma PartsOf(e: EntityId)
    ensures |Split(ToString(e), ':')| == 2 + |Split(e.source, ':')| + |Split(e.id, ':')|
    ensures ':' !in e.source && ':' !in e.id ==> Split(ToString(e), ':') == ["kalinka", e.source, e.kind.Value(), e.id]
  {
    var third := e.kind.Value() + [':'] + e.id;
    SplitAppend(e.kind.Value(), ':', e.id);
    SplitCount(e.source, third, ':');
    SplitAppend("kalinka", ':', e.source + [':'] + third);
    if ':' !in e.source { SplitAppend(e.source, ':', third); }
  }

  /** An id reads back from its text exactly when neither its source nor its own part holds
      the separator; otherwise the text is refused. */
  lemma EntityIdRoundTrip(e: EntityId)
    ensures FromString(ToString(e)) == Some(e) <==> ':' !in e.source && ':' !in e.id
    ensures FromString(ToString(e)).Some? <==> ':' !in e.source && ':' !in e.id
  {
    PartsOf(e);
  }

  lemma {:induction false} SplitJoins(s: string, c: char)
    ensures |Split(s, c)| > 1 ==>
      c in s && s == Split(s, c)[0] + [c] + Tail(s, c) && Split(s, c)[1..] == Split(Tail(s, c), c)
    ensures |Split(s, c)| == 1 ==> Split(s, c) == [s]
  {
    if c in s { HeadTail(s, c); }
  }

  /** Text that is read is the text of what is read. */
  lemma ReadIsWritten(s: string)
    requires FromString(s).Some?
    ensures ToString(FromString(s).value) == s
  {
    var parts := Split(s, ':');
    var t1 := Tail(s, ':');
    var t2 := Tail(t1, ':');
    var t3 := Tail(t2, ':');
    SplitJoins(s, ':');
    SplitJoins(t1, ':');
    SplitJoins(t2, ':');
    SplitJoins(t3, ':');
    TypeIs(parts[2]);
    hide TypeOf, EntityType.Value;
    assert Split(t1, ':') == parts[1..] && Split(t2, ':') == parts[1..][1..] && Split(t3, ':') == parts[1..][1..][1..];
    assert s == parts[0] + [':'] + t1 && t1 == parts[1] + [':'] + t2 && t2 == parts[2] + [':'] + t3 && t3 == parts[3];
  }

  // ----- folders -----

  const PREFIX := "folder."

  function FolderId(path: string): EntityId {
    EntityId(PREFIX + FolderIds.EncodeFolderId(path), Catalog, "localfiles")
  }

  /** The location a catalogue's id names: what follows the prefix, decoded. */
  function FolderNamed(e: EntityId): Option<string> {
    if |e.id| >= |PREFIX| && e.id[..|PREFIX|] == PREFIX then FolderIds.DecodeFolderId(e.id[|PREFIX|..]) else None
  }

  lemma {:induction false} AlphabetHasNoColon(s: string)
    requires FolderIds.AllInAlphabet(s)
    ensures ':' !in s && '/' !in s && '=' !in s
  {
    if s != "" {
      AlphabetHasNoColon(s[1..]);
      assert s == [s[0]] + s[1..];
    }
  }

  lemma PrefixComesOff(id: string)
    requires ':' !in id && '/' !in id
    ensures FolderNamed(EntityId(PREFIX + id, Catalog, "localfiles")) == FolderIds.DecodeFolderId(id)
    ensures ':' !in PREFIX + id && '/' !in PREFIX + id
  {
    assert (PREFIX + id)[|PREFIX|..] == id && (PREFIX + id)[..|PREFIX|] == PREFIX;
  }

  /** A folder's location survives its id, the prefix, and the entity id's text. */
  lemma FolderSurvivesText(path: string)
    requires path != "" && '\0' !in path
    ensures var read := FromString(ToString(FolderId(path)));
      read == Some(FolderId(path)) && FolderNamed(read.value) == Some(path)
    ensures '/' !in FolderId(path).id
  {
    var id := FolderIds.EncodeFolderId(path);
    FolderIds.FolderIdRoundTrip(path);
    AlphabetHasNoColon(id);
    PrefixComesOff(id);
    EntityIdRoundTrip(FolderId(path));
  }
}
