/** `api.Configuration`: the four settings a library user may read and
    change, each optional. */
module Configuration {
  import opened Wrappers
  import CS = ConfigurationStore

  datatype Configuration = Configuration(
    readReceipts: Option<bool>,
    unidentifiedDeliveryIndicators: Option<bool>,
    typingIndicators: Option<bool>,
    linkPreviews: Option<bool>)

  /** The configuration a saved snapshot shows: its first four settings. */
  function OfSnapshot(s: CS.Storage): (c: Configuration)
    ensures c.readReceipts == s.readReceipts && c.unidentifiedDeliveryIndicators == s.unidentifiedDeliveryIndicators
    ensures c.typingIndicators == s.typingIndicators && c.linkPreviews == s.linkPreviews
  {
    Configuration(s.readReceipts, s.unidentifiedDeliveryIndicators, s.typingIndicators, s.linkPreviews)
  }

  /** `from(configurationStore)`: each option present exactly when the
      store's setting is non-null, with that value. */
  function From(store: CS.ConfigurationStore): (c: Configuration)
    reads store
    ensures c == OfSnapshot(store.ToStorage())
  {
    Configuration(store.readReceipts, store.unidentifiedDeliveryIndicators,
                  store.typingIndicators, store.linkPreviews)
  }

  /** The phone-number settings do not reach the configuration. */
  lemma PhoneNumberSettingsNotCarried(s: CS.Storage, unlisted: Option<bool>,
                                      mode: Option<CS.PhoneNumberSharingMode>)
    ensures OfSnapshot(s.(phoneNumberUnlisted := unlisted, phoneNumberSharingMode := mode)) == OfSnapshot(s)
  {
  }

  /** Reloading a snapshot, as written or corrected, shows the same
      configuration: the setting lost on reload is not one of the four. */
  lemma ReloadKeepsConfiguration(s: CS.Storage)
    ensures OfSnapshot(CS.RestoredAsWritten(s)) == OfSnapshot(s)
  {
  }
}
