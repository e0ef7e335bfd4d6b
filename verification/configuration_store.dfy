/** `ConfigurationStore`: the account's six optional settings. Every setter
    writes the new value and hands a snapshot of all six to the saver,
    which persists it; the saver is outside this model, so each call is
    recorded in the ghost log `saved`. */
module ConfigurationStore {
  import opened Wrappers

  /** `PhoneNumberSharingMode` is not part of this model; a mode is
      carried by its constant name. */
  datatype PhoneNumberSharingMode = PhoneNumberSharingMode(name: string)

  /** The persisted snapshot; `None` is a null setting. */
  datatype Storage = Storage(
    readReceipts: Option<bool>,
    unidentifiedDeliveryIndicators: Option<bool>,
    typingIndicators: Option<bool>,
    linkPreviews: Option<bool>,
    phoneNumberUnlisted: Option<bool>,
    phoneNumberSharingMode: Option<PhoneNumberSharingMode>)

  const EMPTY: Storage := Storage(None, None, None, None, None, None)

  /** The settings `fromStorage` restores as written: all but
      `phoneNumberUnlisted`, which stays null. */
  function RestoredAsWritten(s: Storage): (r: Storage)
    ensures r.phoneNumberUnlisted.None?
    ensures r.(phoneNumberUnlisted := s.phoneNumberUnlisted) == s
  {
    s.(phoneNumberUnlisted := None)
  }

  /** A saved `phoneNumberUnlisted` setting does not survive a reload. */
  lemma UnlistedSettingLost()
    ensures var saved := EMPTY.(phoneNumberUnlisted := Some(true));
      RestoredAsWritten(saved) != saved
  {
  }

  class ConfigurationStore {
    var readReceipts: Option<bool>
    var unidentifiedDeliveryIndicators: Option<bool>
    var typingIndicators: Option<bool>
    var linkPreviews: Option<bool>
    var phoneNumberUnlisted: Option<bool>
    var phoneNumberSharingMode: Option<PhoneNumberSharingMode>
    /** The snapshots handed to `saver.save`, in order. */
    ghost var saved: seq<Storage>

    /** `toStorage()`: a snapshot of the six settings. */
    function ToStorage(): (s: Storage)
      reads this
      ensures s.readReceipts == readReceipts && s.unidentifiedDeliveryIndicators == unidentifiedDeliveryIndicators
      ensures s.typingIndicators == typingIndicators && s.linkPreviews == linkPreviews
      ensures s.phoneNumberUnlisted == phoneNumberUnlisted && s.phoneNumberSharingMode == phoneNumberSharingMode
    {
      Storage(readReceipts, unidentifiedDeliveryIndicators, typingIndicators, linkPreviews,
              phoneNumberUnlisted, phoneNumberSharingMode)
    }

    /** `new ConfigurationStore(saver)`: every setting null, nothing saved. */
    constructor()
      ensures ToStorage() == EMPTY && saved == []
    {
      readReceipts := None;
      unidentifiedDeliveryIndicators := None;
      typingIndicators := None;
      linkPreviews := None;
      phoneNumberUnlisted := None;
      phoneNumberSharingMode := None;
      saved := [];
    }

    /** `fromStorage(storage, saver)` as written: five settings restored,
        `phoneNumberUnlisted` left null; the saver is not called. */
    constructor FromStorageAsWritten(storage: Storage)
      ensures ToStorage() == RestoredAsWritten(storage) && saved == []
    {
      readReceipts := storage.readReceipts;
      unidentifiedDeliveryIndicators := storage.unidentifiedDeliveryIndicators;
      typingIndicators := storage.typingIndicators;
      linkPreviews := storage.linkPreviews;
      phoneNumberUnlisted := None;
      phoneNumberSharingMode := storage.phoneNumberSharingMode;
      saved := [];
    }

    /** `fromStorage(storage, saver)` restoring all six settings, so that
        a reload gives back what the last setter saved. */
    constructor FromStorage(storage: Storage)
      ensures ToStorage() == storage && saved == []
    {
      readReceipts := storage.readReceipts;
      unidentifiedDeliveryIndicators := storage.unidentifiedDeliveryIndicators;
      typingIndicators := storage.typingIndicators;
      linkPreviews := storage.linkPreviews;
      phoneNumberUnlisted := storage.phoneNumberUnlisted;
      phoneNumberSharingMode := storage.phoneNumberSharingMode;
      saved := [];
    }

    method SetReadReceipts(value: bool)
      modifies this
      ensures ToStorage() == old(ToStorage()).(readReceipts := Some(value))
      ensures saved == old(saved) + [ToStorage()]
    {
      readReceipts := Some(value);
      saved := saved + [ToStorage()];
    }

    method SetUnidentifiedDeliveryIndicators(value: bool)
      modifies this
      ensures ToStorage() == old(ToStorage()).(unidentifiedDeliveryIndicators := Some(value))
      ensures saved == old(saved) + [ToStorage()]
    {
      unidentifiedDeliveryIndicators := Some(value);
      saved := saved + [ToStorage()];
    }

    method SetTypingIndicators(value: bool)
      modifies this
      ensures ToStorage() == old(ToStorage()).(typingIndicators := Some(value))
      ensures saved == old(saved) + [ToStorage()]
    {
      typingIndicators := Some(value);
      saved := saved + [ToStorage()];
    }

    method SetLinkPreviews(value: bool)
      modifies this
      ensures ToStorage() == old(ToStorage()).(linkPreviews := Some(value))
      ensures saved == old(saved) + [ToStorage()]
    {
      linkPreviews := Some(value);
      saved := saved + [ToStorage()];
    }

    method SetPhoneNumberUnlisted(value: bool)
      modifies this
      ensures ToStorage() == old(ToStorage()).(phoneNumberUnlisted := Some(value))
      ensures saved == old(saved) + [ToStorage()]
    {
      phoneNumberUnlisted := Some(value);
      saved := saved + [ToStorage()];
    }

    /** The mode may be set to null. */
    method SetPhoneNumberSharingMode(value: Option<PhoneNumberSharingMode>)
      modifies this
      ensures ToStorage() == old(ToStorage()).(phoneNumberSharingMode := value)
      ensures saved == old(saved) + [ToStorage()]
    {
      phoneNumberSharingMode := value;
      saved := saved + [ToStorage()];
    }
  }
}
