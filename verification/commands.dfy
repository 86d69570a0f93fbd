/** The in-game commands the fast-reset wrapper sends to the simulator.

    Each constructor stands for one command string of the wrapper and carries
    exactly the values that string interpolates; the textual rendering itself
    (the Minecraft command grammar) is not part of this model. */
module Commands {
  import opened Base

  /** One entry of the simulator's `initial_inventory`. */
  datatype InventoryItem = InventoryItem(slot: int, itemType: string, quantity: int, metadata: int)

  /** The simulator's `start_position` dictionary. */
  datatype StartPosition = StartPosition(x: real, y: real, z: real, yaw: real, pitch: real)

  datatype Cmd =
    | KillAll                                   // /kill
    | SetTime(time: int)                        // /time set <time>
    | SetWeather(weather: string)               // /weather <weather>
    | ReplaceItem(item: InventoryItem)          // /replaceitem entity @p <slot> minecraft:<type> <quantity> <metadata>
    | TeleportStart(start: StartPosition)       // /tp @p <x> <y> <z> <yaw> <pitch>
    | KillNonPlayers                            // /kill @e[type=!player]
    | KillItems                                 // /kill @e[type=item]
    | TeleportTo(pos: Pos)                      // /tp <x> <y> <z> ~ ~
    | SpreadPlayers(centreX: int, centreZ: int, spreadDistance: real, maxRange: real)
                                                // /spreadplayers <cx> <cz> <d> <d+1> false @p
    | RespreadIfOnLeaves(centreX: int, centreZ: int, spreadDistance: real, maxRange: real)
                                                // /execute @p ... detect ~ ~-1 ~ minecraft:leaves -1 spreadplayers ...
}
