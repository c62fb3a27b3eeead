// A value that may be absent: the has_* flags and "no reading" results of the firmware.

module Options {

  datatype Option<+T> = None | Some(value: T)
}
