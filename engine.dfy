/**
 * The audio engine (`pygame.mixer.music`) seen as a command sink: every call the
 * player makes on it is one `Command`, and the player's effect on the engine is the
 * sequence of commands it issues.
 */
module Engine {
  datatype Command =
    | Load(path: string)      // music.load(path)
    | Play(start: int)        // music.play(start=...); play() is Play(0)
    | Pause                   // music.pause()
    | Unpause                 // music.unpause()
    | Stop                    // music.stop()
    | SetVolume(level: real)  // music.set_volume(level)
}
