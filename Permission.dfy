/** `PermissionState`: where the microphone permission stands. */
module Permission {
  datatype PermissionState = Granted | NotRequested | Denied | PermanentlyDenied
}
