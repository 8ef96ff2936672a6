/** The runtime messages exchanged between the popup, the service worker and the offscreen document. */
module Messages {
  import opened JsValues

  datatype Message =
    | StartCapture(tabId: int)                                              // START_CAPTURE
    | StopCapture(tabId: int)                                               // STOP_CAPTURE
    | StartOffscreenAudio(streamId: string, tabId: int, initialVolume: int) // START_OFFSCREEN_AUDIO
    | UpdateOffscreenVolume(tabId: int, newVolume: JsValue)                 // UPDATE_OFFSCREEN_VOLUME
    | StopOffscreenAudio(tabId: int)                                        // STOP_OFFSCREEN_AUDIO
    | Unrecognised(kind: string)                                            // any other `type`
}
