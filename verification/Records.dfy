/** The records that the plugin keeps in its key-value store. */
module Records {
  import opened Wrappers
  import opened Bindings

  type UserID = string

  /** apps.Manifest, as far as the model looks into it; `rest` stands for the other fields. */
  datatype Manifest = Manifest(appID: AppID, schemaVersion: string, version: string, rest: string)

  /** apps.App: the fields of a manifest, and those of the installation. */
  datatype App = App(
    appID: AppID,
    schemaVersion: string,
    version: string,
    manifestRest: string,
    builtin: bool,
    disabled: bool,
    botUserID: UserID,
    oauth2ID: Option<string>,
    rest: string)
  {
    /** app.Manifest = m */
    function WithManifest(m: Manifest): App {
      this.(appID := m.appID, schemaVersion := m.schemaVersion, version := m.version, manifestRest := m.rest)
    }
  }

  /** apps.Event: what a subscription is for. */
  datatype Event = Event(subject: string, channelID: string, teamID: string)

  /** store.Subscription. */
  datatype Subscription = Subscription(call: Call, appID: AppID, ownerUserID: UserID)

  /** store.StoredSubscriptions: everything stored under one subscription key. */
  datatype StoredSubscriptions = StoredSubscriptions(event: Event, subscriptions: seq<Subscription>)

  /** model.Session; the app is its MattermostAppID property, `expiresAt` is in milliseconds. */
  datatype Session = Session(id: string, appID: AppID, userID: UserID, expiresAt: int)

  /**
    What a key holds. JSON is taken to give back what was stored, so a value keeps its shape;
    app and manifest records stay encoded, because their keys are hashes of the encoding.
   */
  datatype Value =
    | Blob(data: string)
    | SubsValue(stored: StoredSubscriptions)
    | SessionValue(session: Session)

  type KVData = map<string, Value>
}
