/** The part of the running game instance that the gameplay core and the
    menu write into. Scene switching itself (unloading one scene, loading
    the next) lives outside the core, so a switch is recorded as a request. */
module Host {

  /** A call the core makes on the game instance to switch scenes:
      `loadScene(name)` from the player's death, `setCurrentScene(name)`
      from the menu. */
  datatype SceneRequest = LoadScene(name: string) | SetCurrentScene(name: string)

  class Game {
    var isRunning: bool
    var endScore: int
    var requests: seq<SceneRequest>

    constructor ()
      ensures isRunning && endScore == 0 && requests == []
    {
      isRunning := true;
      endScore := 0;
      requests := [];
    }
  }
}
