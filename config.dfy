/** The scene's static configuration: the palette and the population sizes. */
module Config {

  const BG: string := "#000000"
  /** Velvet red. */
  const RED: string := "#D00000"
  /** 24K gold. */
  const GOLD: string := "#FFD700"
  /** British racing green. */
  const GREEN: string := "#004225"
  /** Sea green. */
  const LIGHT_GREEN: string := "#2E8B57"
  const WHITE: string := "#FFFFFF"

  const FOLIAGE_COUNT: nat := 12000
  const ITEM_COUNT: nat := 480
  const SNOWFLAKE_COUNT: nat := 800
}
