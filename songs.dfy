/** The song records shared by the song guide and the songs page. */
module Songs {

  /** One step of a progression: a chord key and how many beats it lasts. */
  datatype Step = Step(chord: string, beats: real)

  /** A song as stored: title, meter, tempo, steps and whether it loops. */
  datatype Song = Song(title: string, meter: string, bpm: real, steps: seq<Step>, loop: bool)
}
