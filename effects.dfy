/** The calls the sandbox makes on its collaborators, recorded in the order they
    are issued, so that the ordering promises of start and stop can be stated. */
module Effects {
  import opened Outcomes

  /** An opaque handle of a connected database client. */
  type Client = nat

  datatype Effect =
    | CheckDownload                   // installer: is the download present?
    | Download                        // installer: download the server binaries
    | DerivePortCall(basePort: Option<int>)  // port registry: derive a port from the configured base
    | ResolveBinary                   // installer: path of the installed server binary
    | PurgeServer                     // server topology: clear its data directory
    | DiscoverServer                  // server topology: query its configuration
    | StartServer                     // server topology: launch
    | StopServer                      // server topology: shut down
    | ReleasePort(port: int)          // port registry: give the port back
    | Connect(url: string)            // database client: connect to this url
    | CloseClient(client: Client)     // database client: close one connection
    | ListCollections(database: string)  // database client: collections of a database
    | CountDocuments(collection: nat) // database client: count one collection
    | DeleteDocuments(collection: nat)   // database client: delete everything in one collection
}
