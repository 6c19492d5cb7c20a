/** The records the app reads from its bundled beacon files, and an optional value. */
module BeaconTypes {

  datatype Option<T> = None | Some(value: T)

  /** One known physical beacon (the app's `BeaconData`): its Bluetooth address and its WGS84 coordinates in degrees. */
  datatype BeaconRecord = BeaconRecord(beaconUid: string, latitude: real, longitude: real)

  /** One parsed reference file: a page of beacon records plus pagination fields that nothing reads. */
  datatype BeaconResponse = BeaconResponse(
    items: seq<BeaconRecord>,
    totalPages: int,
    itemsFrom: int,
    itemsTo: int,
    totalItemsCount: int)

  /** The index from Bluetooth address to reference record. */
  type BeaconIndex = map<string, BeaconRecord>
}
