/** GPS points, rows and trips. */
module Tracks {
  import opened Seqs

  /** One GPS point; `body` stands for its position and variables. */
  datatype TrackPoint = TrackPoint(utc: string, body: int)

  /** A point of a vehicle-day; `trackInfoId` is 0 when the row carries no recording id. */
  datatype DayTrackRow = DayTrackRow(trackInfoId: nat, point: TrackPoint)

  /** A recording of one user. */
  datatype TrackInfo = TrackInfo(id: int, userId: int, created: Option<string>)

  datatype Trip = Trip(trackInfoId: int, userId: int, created: Option<string>, tracks: seq<TrackPoint>)
}
