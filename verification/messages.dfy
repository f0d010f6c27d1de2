/**
 * The runtime messages exchanged by the popup, the service worker and the
 * content script, by `type`. Human-readable `status` and `error` texts are
 * not carried.
 */
module Messages {

  datatype Message =
    | OpenFlowPage
    | ProcessPrompt(prompt: string, promptIndex: int)
    | StopQueue
    | CollectAllVideoLinks
    | FillAndSubmit(prompt: string, promptIndex: int)
    | Stop
    | Ping
    | PromptSubmitted(promptIndex: int)
    | VideoCompleted(promptIndex: int, videoUrl: string)
    | VideoError(promptIndex: int)
    | StatusUpdate
    | CollectionCompleted(videoCount: nat)
    /** Any other `type`. */
    | Other(kind: string)

  /** What a listener passes to `sendResponse`. */
  datatype Reply =
    | Ok                       // {success: true}
    | Ready                    // {success: true, ready: true}
    | Refused(error: string)   // {success: false, error}

  const UnknownMessageType: string := "Unknown message type"
}
