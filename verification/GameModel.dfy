/** internal/model/game.go: what the status and phase of a game allow. */
module GameModel {

  predicate CanStart(status: string) {
    status == "draft"
  }

  predicate CanPause(status: string, phase: string) {
    status == "running" && phase == "running"
  }

  predicate CanResume(status: string) {
    status == "paused"
  }

  predicate CanFinish(status: string) {
    status == "running" || status == "paused"
  }
}
