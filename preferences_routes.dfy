/**
 * The `/preferences` routes of the backend: a single preferences document,
 * created on first access and updated in place afterwards.
 */
module PreferencesRoutes {
  import opened Wrappers
  import opened Models
  import opened Database


  /** The language of a newly created preferences document unless one is supplied. */
  const DefaultLanguage := "en"

  /**
   * `get_preferences`: the stored document, or, when there is none, a new
   * English one that is stored and returned. Nothing else changes.
   */
  method GetPreferences(db: Database, freshId: string, now: Timestamp) returns (r: Preferences)
    requires db.Valid()
    modifies db
    ensures db.Valid()
    ensures old(db.preferences) != [] ==> r == old(db.preferences)[0] && db.preferences == old(db.preferences)
    ensures old(db.preferences) == [] ==> r == Preferences(freshId, DefaultLanguage, now, now) && db.preferences == [r]
    ensures db.preferences == [r]
    ensures db.games == old(db.games) && db.backlog == old(db.backlog)
  {
    if db.preferences != [] {
      return db.preferences[0];
    }
    var id := ModelId(PreferencesRequiredFields, freshId).value;
    r := Preferences(id, DefaultLanguage, now, now);
    db.preferences := db.preferences + [r];
  }

  /**
   * Reading the preferences twice gives the same document, and only the
   * first read can create it.
   */
  method GetPreferencesTwice(db: Database, freshId: string, freshId': string, now: Timestamp, now': Timestamp)
    returns (first: Preferences, second: Preferences)
    requires db.Valid()
    modifies db
    ensures first == second
    ensures db.preferences == [first]
    ensures old(db.preferences) != [] ==> db.preferences == old(db.preferences)
  {
    first := GetPreferences(db, freshId, now);
    second := GetPreferences(db, freshId', now');
  }

  /**
   * `update_preferences`: without a language, 400 and nothing changes; with
   * no stored document, a new one holding the supplied language; otherwise
   * the stored document keeps its id and creation time and takes the
   * language and the update time.
   */
  method UpdatePreferences(db: Database, u: PreferencesUpdate, freshId: string, now: Timestamp)
    returns (r: Result<Preferences>)
    requires db.Valid()
    modifies db
    ensures db.Valid()
    ensures u.language.None? ==> r == Err(NoUpdateData) && db.preferences == old(db.preferences)
    ensures u.language.Some? && old(db.preferences) == [] ==>
      r == Ok(Preferences(freshId, u.language.value, now, now)) && db.preferences == [r.value]
    ensures u.language.Some? && old(db.preferences) != [] ==>
      r == Ok(old(db.preferences)[0].(language := u.language.value, updatedAt := now)) &&
      db.preferences == [r.value]
    ensures r.Ok? ==> r.value.language == u.language.value
    ensures db.games == old(db.games) && db.backlog == old(db.backlog)
  {
    if u.language.None? {
      return Err(NoUpdateData);
    }
    if db.preferences == [] {
      var id := ModelId(PreferencesRequiredFields, freshId).value;
      var language := if u.language.Some? then u.language.value else DefaultLanguage;
      var created := Preferences(id, language, now, now);
      db.preferences := db.preferences + [created];
      return Ok(created);
    }
    var stored := db.preferences[0];
    var updated := stored.(language := u.language.value, updatedAt := now);
    db.preferences := db.preferences[0 := updated];
    r := Ok(updated);
  }

  /**
   * An update keeps the document that a read returns: reading after
   * updating gives the updated document, whatever was stored before.
   */
  method UpdateThenGet(db: Database, language: string, freshId: string, freshId': string, now: Timestamp, now': Timestamp)
    returns (updated: Result<Preferences>, read: Preferences)
    requires db.Valid()
    modifies db
    ensures updated.Ok? && read == updated.value && read.language == language
    ensures |db.preferences| == 1
  {
    updated := UpdatePreferences(db, PreferencesUpdate(language := Some(language)), freshId, now);
    read := GetPreferences(db, freshId', now');
  }
}
