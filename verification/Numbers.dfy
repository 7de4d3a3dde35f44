module Numbers {
  function Max(x: int, y: int): int { if x < y then y else x }
}
