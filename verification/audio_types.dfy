/** The Core Audio enumerations the model talks about. */
module AudioTypes {

  /** Direction of an audio endpoint (`EDataFlow`). */
  datatype DataFlow = Render | Capture | All

  /** The usage category a default-device query is made for (`ERole`). */
  datatype Role = Console | Multimedia | Communications

  /** Device kind used by the managed device enumerators. */
  datatype DeviceType = Playback | Capture | All
}
