/** Results that can be absent: where pandas yields not-a-number, or where the
    dashboard's code raises on its input, the model returns `None`. */
module Optional {
  datatype Option<T> = None | Some(value: T)
}
