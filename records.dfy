/** The committed annotation of one audio file. */
module Records {

  /**
   * One saved entry of the session: the basename of the file, the
   * transcription text, the comma-joined labels and the start and end times
   * exactly as typed (they are not checked to be numbers).
   */
  datatype LabelRecord = LabelRecord(
    filename: string,
    transcription: string,
    labels: string,
    startTime: string,
    endTime: string)
}
