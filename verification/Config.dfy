/** Constants of NightWatch (config.h, chunk_monitor.h). */
module Config {
  const PAGE_SIZE: nat := 4096
  const SMALL_MEMORY_CHUNK: nat := 8192
  const LARGE_MEMORY_CHUNK: nat := 1048576
  const MIN_SAMPLE_CYCLE: nat := 2
  const MAX_SAMPLE_CYCLE: nat := 8
}
