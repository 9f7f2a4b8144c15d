/**
 * The src/ copy's conversation file (src/conversation/conversation.go) as a
 * stored value at its path, and the operations that read it, change one part
 * of it and write it back. JSON encoding, the temporary file and the rename
 * are not modelled: a file written reads back as the record written.
 */
module SrcConversation {
  import opened Wrappers
  import opened GoStrconv
  import opened Json
  import opened ConfigMap
  import opened SrcFile
  import opened SrcSettings

  /**
   * What the conversation path holds: no file, or a file with two
   * independent facts about it: whether it is a JSON object whose "messages"
   * is an array (the shape ensureHistoryFileStructure checks), and the record
   * json.Unmarshal decodes from it, if it decodes.
   */
  datatype Stored = Missing | Present(shaped: bool, decoded: Option<ConversationFile>)

  /** readConversation: the decoded file, or an error. */
  function Read(s: Stored): (r: Option<ConversationFile>)
    ensures r.Some? <==> s.Present? && s.decoded.Some?
    ensures r.Some? ==> r.value == s.decoded.value
  {
    if s.Present? then s.decoded else None
  }

  /** A file ensureHistoryFileStructure accepts as it is. */
  predicate Shaped(s: Stored) {
    s.Present? && s.shaped
  }

  /**
   * The file created for a missing path: no system prompt, no messages, and
   * the settings taken from cfg as persistSettingsToFile would take them,
   * except that Stop and HistoryLimit are left at zero.
   */
  function NewFile(cfg: map<string, string>): ConversationFile {
    ConversationFile(
      "",
      Settings(
        Get(cfg, "MODEL"),
        ParseFloatOr(Get(cfg, "TEMPERATURE"), FromInt(1)),
        ParseFloatOr(Get(cfg, "TOP_P"), FromInt(1)),
        ParseFloatOr(Get(cfg, "FREQUENCY_PENALTY"), FromInt(0)),
        ParseFloatOr(Get(cfg, "PRESENCE_PENALTY"), FromInt(0)),
        AtoiOr(Get(cfg, "MAX_TOKENS"), 4096),
        Get(cfg, "STREAM") == "true",
        Get(cfg, "REASONING_EFFORT"),
        "",
        0),
      [])
  }

  /** What ensureHistoryFileStructure leaves at the path. */
  function Ensured(s: Stored, cfg: map<string, string>): Stored {
    if Shaped(s) then s else Present(true, Some(NewFile(cfg)))
  }

  /** The files it moves to a backup path: a present file it rejects. */
  function BackedUp(s: Stored): seq<Stored> {
    if s.Present? && !s.shaped then [s] else []
  }

  // The stored value after each operation; a file that does not decode is
  // left as it is. Writing a record whose Messages is non-nil writes an
  // array; a record read from a file without a messages array has nil
  // Messages and writes null, so the shape survives a write that does not
  // touch Messages.

  function Appended(s: Stored, m: Message): (r: Stored)
    ensures Read(r).Some? <==> Read(s).Some?
    ensures Read(s).Some? ==>
      Shaped(r) && Read(r).value == Read(s).value.(messages := Read(s).value.messages + [m])
  {
    if Read(s).Some? then Present(true, Some(s.decoded.value.(messages := s.decoded.value.messages + [m]))) else s
  }

  function Cleared(s: Stored): (r: Stored)
    ensures Read(r).Some? <==> Read(s).Some?
    ensures Read(s).Some? ==> Shaped(r) && Read(r).value == Read(s).value.(messages := [])
  {
    if Read(s).Some? then Present(true, Some(s.decoded.value.(messages := []))) else s
  }

  function WithSystem(s: Stored, content: string): (r: Stored)
    ensures Read(r).Some? <==> Read(s).Some?
    ensures Read(s).Some? ==> (Shaped(r) <==> Shaped(s)) && Read(r).value == Read(s).value.(system := content)
  {
    if Read(s).Some? then Present(s.shaped, Some(s.decoded.value.(system := content))) else s
  }

  function WithSettings(s: Stored, cfg: map<string, string>): (r: Stored)
    ensures Read(r).Some? <==> Read(s).Some?
    ensures Read(s).Some? ==> (Shaped(r) <==> Shaped(s)) && Read(r).value == Persisted(cfg, Read(s).value)
  {
    if Read(s).Some? then Present(s.shaped, Some(Persisted(cfg, s.decoded.value))) else s
  }

  /** The conversation file at one path, read and rewritten by each operation. */
  class Store {
    var stored: Stored
    /** The rejected files moved aside, oldest first. */
    var backups: seq<Stored>

    constructor (s: Stored)
      ensures stored == s && backups == []
    {
      stored := s;
      backups := [];
    }

    method ReadConversation() returns (r: Option<ConversationFile>)
      ensures r == Read(stored)
    {
      if stored.Present? {
        return stored.decoded;
      }
      return None;
    }

    /** writeConversation; shaped tells whether the record's Messages is non-nil. */
    method WriteConversation(cf: ConversationFile, shaped: bool)
      modifies this
      ensures stored == Present(shaped, Some(cf)) && backups == old(backups)
    {
      stored := Present(shaped, Some(cf));
    }

    /**
     * ensureHistoryFileStructure: a missing file is created; a present one
     * without a messages array is moved aside and created afresh.
     */
    method EnsureHistoryFileStructure(cfg: map<string, string>)
      modifies this
      decreases if stored.Missing? then 0 else 1
      ensures stored == Ensured(old(stored), cfg)
      ensures backups == old(backups) + BackedUp(old(stored))
    {
      if stored.Missing? {
        WriteConversation(NewFile(cfg), true);
      } else if !stored.shaped {
        BackUp();
        EnsureHistoryFileStructure(cfg);
      }
    }

    /** Renames the file at the path to a backup name, leaving the path empty. */
    method BackUp()
      modifies this
      ensures stored == Missing && backups == old(backups) + [old(stored)]
    {
      backups := backups + [stored];
      stored := Missing;
    }

    method AppendMessage(role: string, content: string) returns (ok: bool)
      modifies this
      ensures ok == Read(old(stored)).Some?
      ensures stored == Appended(old(stored), Message(role, content)) && backups == old(backups)
    {
      var cf := ReadConversation();
      if cf.None? {
        return false;
      }
      WriteConversation(cf.value.(messages := cf.value.messages + [Message(role, content)]), true);
      return true;
    }

    method MessageCount() returns (count: int, ok: bool)
      ensures ok == Read(stored).Some?
      ensures count == if ok then |Read(stored).value.messages| else 0
    {
      var cf := ReadConversation();
      if cf.None? {
        return 0, false;
      }
      return |cf.value.messages|, true;
    }

    method PersistSystemToFile(content: string) returns (ok: bool)
      modifies this
      ensures ok == Read(old(stored)).Some?
      ensures stored == WithSystem(old(stored), content) && backups == old(backups)
    {
      var cf := ReadConversation();
      if cf.None? {
        return false;
      }
      WriteConversation(cf.value.(system := content), stored.shaped);
      return true;
    }

    /** The /clear command: the messages replaced by an empty list. */
    method ClearMessages() returns (ok: bool)
      modifies this
      ensures ok == Read(old(stored)).Some?
      ensures stored == Cleared(old(stored)) && backups == old(backups)
    {
      var cf := ReadConversation();
      if cf.None? {
        return false;
      }
      WriteConversation(cf.value.(messages := []), true);
      return true;
    }

    /** persistSettingsToFile on the stored file. */
    method PersistSettings(cfg: map<string, string>) returns (ok: bool)
      modifies this
      ensures ok == Read(old(stored)).Some?
      ensures stored == WithSettings(old(stored), cfg) && backups == old(backups)
    {
      var cf := ReadConversation();
      if cf.None? {
        return false;
      }
      WriteConversation(Persisted(cfg, cf.value), stored.shaped);
      return true;
    }

    /** applyFileSettingsAsDefaults on the stored file; the file itself is not changed. */
    method ApplySettings(cfg: Cfg, provided: map<string, bool>) returns (ok: bool)
      modifies cfg
      ensures ok == Read(stored).Some?
      ensures ok ==> cfg.entries == Applied(old(cfg.entries), Read(stored).value.settings, provided)
      ensures !ok ==> cfg.entries == old(cfg.entries)
    {
      var cf := ReadConversation();
      ok := ApplyFileSettingsAsDefaults(cfg, cf, provided);
    }
  }

  // ---------------------------------------------------------------------
  // What the store promises
  // ---------------------------------------------------------------------

  /** After ensureHistoryFileStructure the file is shaped; running it again changes nothing and backs up nothing. */
  lemma EnsuredShaped(s: Stored, cfg: map<string, string>)
    ensures Shaped(Ensured(s, cfg))
    ensures Ensured(Ensured(s, cfg), cfg) == Ensured(s, cfg)
    ensures BackedUp(Ensured(s, cfg)) == []
  {
  }

  /**
   * A shaped file is kept as it is, even one that does not decode; every
   * other file is replaced by a new one, and a present one is kept as a
   * backup.
   */
  lemma EnsuredKeepsOnlyShaped(s: Stored, cfg: map<string, string>)
    ensures Ensured(s, cfg) == s <==> Shaped(s)
    ensures !Shaped(s) ==> Read(Ensured(s, cfg)) == Some(NewFile(cfg))
    ensures s.Present? && !Shaped(s) ==> BackedUp(s) == [s]
    ensures Shaped(s) || s.Missing? ==> BackedUp(s) == []
  {
  }

  /**
   * A new file holds no system prompt and no messages, and its settings are
   * the ones persistSettingsToFile would write, without stop and history
   * limit.
   */
  lemma NewFileIsPersistedDefaults(cfg: map<string, string>)
    ensures NewFile(cfg).system == "" && NewFile(cfg).messages == []
    ensures NewFile(cfg).settings == BuildSettings(cfg).(stop := "", historyLimit := 0)
  {
  }

  /** Appending counts: the message count grows by one and the new message is last. */
  lemma AppendCounts(s: Stored, m: Message)
    requires Read(s).Some?
    ensures var r := Read(Appended(s, m)).value;
      |r.messages| == |Read(s).value.messages| + 1 && r.messages[|r.messages| - 1] == m
      && r.messages[..|r.messages| - 1] == Read(s).value.messages
  {
  }

  /** Clearing, then appending: the conversation holds just that message; system and settings are kept. */
  lemma ClearThenAppend(s: Stored, m: Message)
    requires Read(s).Some?
    ensures var r := Read(Appended(Cleared(s), m)).value;
      r.messages == [m] && r.system == Read(s).value.system && r.settings == Read(s).value.settings
  {
  }

  /** Writing the system prompt or the settings touches nothing else; the two commute. */
  lemma SystemAndSettingsIndependent(s: Stored, content: string, cfg: map<string, string>)
    ensures WithSystem(WithSettings(s, cfg), content) == WithSettings(WithSystem(s, content), cfg)
    ensures Read(s).Some? ==>
      Read(WithSettings(s, cfg)).value.system == Read(s).value.system
      && Read(WithSettings(s, cfg)).value.messages == Read(s).value.messages
      && Read(WithSystem(s, content)).value.settings == Read(s).value.settings
  {
  }
}
