/** The built-in seed list shown when nothing usable is stored. */
module Constants {
  import opened Types

  const InitialProjects: seq<Project> := [
    Project(
      "1",
      "Neon Cyber Racer",
      "A high-speed infinite racer set in a procedural cyberpunk city. Features custom shaders and reactive audio systems.",
      "https://picsum.photos/800/600?random=1",
      ["Unity", "C#", "Shader Graph"],
      PC, None, None),
    Project(
      "2",
      "Mystic Quest RPG",
      "An open-world RPG with a complex inventory system and dynamic quest generation using scriptable objects.",
      "https://picsum.photos/800/600?random=2",
      ["Unity", "C#", "Dialogue System"],
      Mobile, None, None),
    Project(
      "3",
      "Space Frontier VR",
      "Immersive VR space exploration simulator designed for Oculus Quest 2. Optimized for mobile VR performance.",
      "https://picsum.photos/800/600?random=3",
      ["Unity", "XR Interaction Toolkit", "Oculus SDK"],
      VR, None, None)
  ]
}
