/** The nullable values of the lead record (a SQL NULL or a JSON null). */
module Optional {

  datatype Option<+T> = None | Some(value: T)
}
